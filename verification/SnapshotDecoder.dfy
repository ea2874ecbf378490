/** The offset-advancing `Decoder` behind `from_bytes`, proved to read what the formats describe. */
module SnapshotDecoder {
  import opened Prelude
  import opened Limits
  import opened Wire
  import opened Formats
  import opened SnapshotCodec

  /** The outcome `r` with `rest` left over is what the description says. */
  ghost predicate Matches<T>(described: Option<Parsed<T>>, r: Option<T>, rest: Bytes) {
    described == match r case Some(value) => Some(Parsed(value, rest)) case None => None
  }

  /** The elements read so far in front of what the remaining ones will give. */
  function Prepend<T>(done: seq<T>, others: Option<Parsed<seq<T>>>): Option<Parsed<seq<T>>> {
    match others
    case None => None
    case Some(p) => Some(Parsed(done + p.value, p.rest))
  }

  lemma ReadOneMore<T>(f: Format<T>, done: seq<T>, n: nat, b: Bytes)
    requires n > 0
    ensures Prepend(done, ReadMany(f, n, b)) ==
            match f.read(b) case None => None case Some(p) => Prepend(done + [p.value], ReadMany(f, n - 1, p.rest))
  {
    var p := f.read(b);
    if p.Some? && ReadMany(f, n - 1, p.value.rest).Some? {
      var others := ReadMany(f, n - 1, p.value.rest).value.value;
      assert done + ([p.value.value] + others) == (done + [p.value.value]) + others;
    }
  }

  lemma NothingYet<T>(others: Option<Parsed<seq<T>>>)
    ensures Prepend([], others) == others
  {
    assert others.Some? ==> [] + others.value.value == others.value.value;
  }

  /** A two-byte count within its bound. */
  function ReadCount(maximum: nat, b: Bytes): Option<Parsed<nat>> {
    match ReadUInt(2, b)
    case None => None
    case Some(p) => if p.value <= maximum then Some(p) else None
  }

  lemma ReadNoMore<T>(f: Format<T>, done: seq<T>, b: Bytes)
    ensures Prepend(done, ReadMany(f, 0, b)) == Some(Parsed(done, b))
  {
    assert done + [] == done;
  }

  class Decoder {
    const bytes: Bytes
    var offset: nat

    constructor (bytes: Bytes)
      ensures Valid() && this.bytes == bytes && Rest() == bytes
    {
      this.bytes, offset := bytes, 0;
    }

    predicate Valid()
      reads this
    {
      offset <= |bytes|
    }

    function Rest(): Bytes
      reads this
      requires Valid()
    {
      bytes[offset..]
    }

    method Take(n: nat) returns (r: Option<Bytes>)
      requires Valid()
      modifies this
      ensures Valid() && Matches(Fixed(n).read(old(Rest())), r, Rest())
    {
      if offset + n > |bytes| {
        return None;
      }
      r := Some(bytes[offset..offset + n]);
      assert bytes[offset..][..n] == bytes[offset..offset + n];
      offset := offset + n;
    }

    method Unsigned(width: nat) returns (r: Option<nat>)
      requires Valid()
      modifies this
      ensures Valid() && Matches(UInt(width).read(old(Rest())), r, Rest())
    {
      var taken := Take(width);
      return match taken case Some(b) => Some(FromBE(b)) case None => None;
    }

    method Prefixed(low: nat, high: nat) returns (r: Option<Bytes>)
      requires Valid()
      modifies this
      ensures Valid() && Matches(Blob(2, low, high).read(old(Rest())), r, Rest())
    {
      var length := Unsigned(2);
      if length.None? || !(low <= length.value <= high) {
        return None;
      }
      r := Take(length.value);
    }

    method Text() returns (r: Option<Bytes>)
      requires Valid()
      modifies this
      ensures Valid() && Matches(Url().read(old(Rest())), r, Rest())
    {
      hide Blob;
      var b := Prefixed(1, MAX_URL);
      if b.None? || !Ascii(b.value) {
        return None;
      }
      return b;
    }

    method Count(maximum: nat) returns (r: Option<nat>)
      requires Valid()
      modifies this
      ensures Valid() && Matches(ReadCount(maximum, old(Rest())), r, Rest())
    {
      var n := Unsigned(2);
      if n.None? || n.value > maximum {
        return None;
      }
      return n;
    }

    method Blobs(maximum: nat) returns (r: Option<seq<Bytes>>)
      requires Valid()
      modifies this
      ensures Valid() && Matches(Credentials(maximum).read(old(Rest())), r, Rest())
    {
      hide Blob, ReadUInt;
      var f := Blob(2, 1, MAX_CREDENTIAL_BYTES);
      var count := Count(maximum);
      if count.None? {
        return None;
      }
      ghost var start := Rest();
      NothingYet(ReadMany(f, count.value, start));
      var values: seq<Bytes> := [];
      for i := 0 to count.value
        invariant Valid() && ReadMany(f, count.value, start) == Prepend(values, ReadMany(f, count.value - i, Rest()))
      {
        ReadOneMore(f, values, count.value - i, Rest());
        var value := Prefixed(1, MAX_CREDENTIAL_BYTES);
        if value.None? {
          return None;
        }
        values := values + [value.value];
      }
      ReadNoMore(f, values, Rest());
      return Some(values);
    }

    method Serials(maximum: nat) returns (r: Option<seq<nat>>)
      requires Valid()
      modifies this
      ensures Valid() && Matches(Listed(UInt(8), maximum).read(old(Rest())), r, Rest())
    {
      hide UInt, ReadUInt;
      var f := UInt(8);
      var count := Count(maximum);
      if count.None? {
        return None;
      }
      ghost var start := Rest();
      NothingYet(ReadMany(f, count.value, start));
      var values: seq<nat> := [];
      for i := 0 to count.value
        invariant Valid() && ReadMany(f, count.value, start) == Prepend(values, ReadMany(f, count.value - i, Rest()))
      {
        ReadOneMore(f, values, count.value - i, Rest());
        var value := Unsigned(8);
        if value.None? {
          return None;
        }
        values := values + [value.value];
      }
      ReadNoMore(f, values, Rest());
      return Some(values);
    }

    method DnsEntry() returns (r: Option<DnsRow>)
      requires Valid()
      modifies this
      ensures Valid() && Matches(DnsFormat().read(old(Rest())), r, Rest())
    {
      hide Url, Fixed, UInt, NameOk;
      var name := Text();
      if name.None? || !NameOk(name.value) {
        return None;
      }
      var app := Take(32);
      if app.None? {
        return None;
      }
      var expires := Unsigned(8);
      if expires.None? {
        return None;
      }
      return Some(DnsRow(name.value, app.value, expires.value));
    }

    method Zone() returns (r: Option<seq<DnsRow>>)
      requires Valid()
      modifies this
      ensures Valid() && Matches(ZoneFormat().read(old(Rest())), r, Rest())
    {
      hide DnsFormat, ReadUInt;
      var f := DnsFormat();
      var count := Count(MAX_DNS);
      if count.None? {
        return None;
      }
      ghost var start := Rest();
      NothingYet(ReadMany(f, count.value, start));
      var values: seq<DnsRow> := [];
      for i := 0 to count.value
        invariant Valid() && ReadMany(f, count.value, start) == Prepend(values, ReadMany(f, count.value - i, Rest()))
      {
        ReadOneMore(f, values, count.value - i, Rest());
        var value := DnsEntry();
        if value.None? {
          return None;
        }
        values := values + [value.value];
      }
      ReadNoMore(f, values, Rest());
      return Some(values);
    }

    method RelayEntry() returns (r: Option<RelayRow>)
      requires Valid()
      modifies this
      ensures Valid() && Matches(RelayFormat().read(old(Rest())), r, Rest())
    {
      hide Url, Fixed, UInt;
      var endpoint := Take(32);
      if endpoint.None? {
        return None;
      }
      var url := Text();
      if url.None? {
        return None;
      }
      var roles := Unsigned(4);
      if roles.None? {
        return None;
      }
      var expires := Unsigned(8);
      if expires.None? {
        return None;
      }
      return Some(RelayRow(endpoint.value, url.value, roles.value, expires.value));
    }

    method Relays() returns (r: Option<seq<RelayRow>>)
      requires Valid()
      modifies this
      ensures Valid() && Matches(Listed(RelayFormat(), MAX_RELAYS).read(old(Rest())), r, Rest())
    {
      hide RelayFormat, ReadUInt;
      var f := RelayFormat();
      var count := Count(MAX_RELAYS);
      if count.None? {
        return None;
      }
      ghost var start := Rest();
      NothingYet(ReadMany(f, count.value, start));
      var values: seq<RelayRow> := [];
      for i := 0 to count.value
        invariant Valid() && ReadMany(f, count.value, start) == Prepend(values, ReadMany(f, count.value - i, Rest()))
      {
        ReadOneMore(f, values, count.value - i, Rest());
        var value := RelayEntry();
        if value.None? {
          return None;
        }
        values := values + [value.value];
      }
      ReadNoMore(f, values, Rest());
      return Some(values);
    }

    method PresenceEntry() returns (r: Option<PresenceRow>)
      requires Valid()
      modifies this
      ensures Valid() && Matches(PresenceFormat().read(old(Rest())), r, Rest())
    {
      hide Url, Fixed, UInt;
      var endpoint := Take(32);
      if endpoint.None? {
        return None;
      }
      var url := Text();
      if url.None? {
        return None;
      }
      var expires := Unsigned(8);
      if expires.None? {
        return None;
      }
      return Some(PresenceRow(endpoint.value, url.value, expires.value));
    }

    method PresenceServices() returns (r: Option<seq<PresenceRow>>)
      requires Valid()
      modifies this
      ensures Valid() && Matches(Listed(PresenceFormat(), MAX_PRESENCE).read(old(Rest())), r, Rest())
    {
      hide PresenceFormat, ReadUInt;
      var f := PresenceFormat();
      var count := Count(MAX_PRESENCE);
      if count.None? {
        return None;
      }
      ghost var start := Rest();
      NothingYet(ReadMany(f, count.value, start));
      var values: seq<PresenceRow> := [];
      for i := 0 to count.value
        invariant Valid() && ReadMany(f, count.value, start) == Prepend(values, ReadMany(f, count.value - i, Rest()))
      {
        ReadOneMore(f, values, count.value - i, Rest());
        var value := PresenceEntry();
        if value.None? {
          return None;
        }
        values := values + [value.value];
      }
      ReadNoMore(f, values, Rest());
      return Some(values);
    }

    method Header() returns (r: Option<HeaderTuple>)
      requires Valid()
      modifies this
      ensures Valid() && Matches(HeaderFormat().read(old(Rest())), r, Rest())
    {
      hide Fixed, UInt;
      var network := Take(32);
      if network.None? {
        return None;
      }
      var epoch := Unsigned(8);
      if epoch.None? {
        return None;
      }
      var revision := Unsigned(8);
      if revision.None? {
        return None;
      }
      var previous := Take(32);
      if previous.None? {
        return None;
      }
      var issuedAt := Unsigned(8);
      if issuedAt.None? {
        return None;
      }
      var expiresAt := Unsigned(8);
      if expiresAt.None? {
        return None;
      }
      return Some((network.value, (epoch.value, (revision.value, (previous.value, (issuedAt.value, expiresAt.value))))));
    }

    method Lists() returns (r: Option<ListsTuple>)
      requires Valid()
      modifies this
      ensures Valid() && Matches(ListsFormat().read(old(Rest())), r, Rest())
    {
      hide Credentials, Listed, UInt;
      var admins := Blobs(MAX_ADMINS);
      if admins.None? {
        return None;
      }
      var members := Blobs(MAX_MEMBERS);
      if members.None? {
        return None;
      }
      var endpoints := Blobs(MAX_MEMBERS);
      if endpoints.None? {
        return None;
      }
      var revoked := Serials(MAX_REVOKED);
      if revoked.None? {
        return None;
      }
      var apps := Blobs(MAX_APPS);
      if apps.None? {
        return None;
      }
      var bindings := Blobs(MAX_BINDINGS);
      if bindings.None? {
        return None;
      }
      return Some((admins.value, (members.value, (endpoints.value, (revoked.value, (apps.value, bindings.value))))));
    }

    method FrontPart() returns (r: Option<Front>)
      requires Valid()
      modifies this
      ensures Valid() && Matches(FrontFormat().read(old(Rest())), r, Rest())
    {
      hide HeaderFormat, ListsFormat;
      var header := Header();
      if header.None? {
        return None;
      }
      var lists := Lists();
      if lists.None? {
        return None;
      }
      var (network, (epoch, (revision, (previous, (issuedAt, expiresAt))))) := header.value;
      var (admins, (members, (endpoints, (revoked, (apps, bindings))))) := lists.value;
      return Some(Front(network, epoch, revision, previous, issuedAt, expiresAt, admins, members, endpoints, revoked, apps, bindings));
    }

    method Secrets() returns (r: Option<SecretsTuple>)
      requires Valid()
      modifies this
      ensures Valid() && Matches(SecretsFormat().read(old(Rest())), r, Rest())
    {
      hide Fixed;
      var index := Take(32);
      if index.None? {
        return None;
      }
      var encryption := Take(32);
      if encryption.None? {
        return None;
      }
      var discovery := Take(32);
      if discovery.None? {
        return None;
      }
      var access := Take(32);
      if access.None? {
        return None;
      }
      return Some((index.value, (encryption.value, (discovery.value, access.value))));
    }

    method Policy() returns (r: Option<PolicyTuple>)
      requires Valid()
      modifies this
      ensures Valid() && Matches(PolicyFormat().read(old(Rest())), r, Rest())
    {
      hide UInt;
      var flags := Unsigned(4);
      if flags.None? {
        return None;
      }
      var maxMembers := Unsigned(2);
      if maxMembers.None? {
        return None;
      }
      var maxServices := Unsigned(2);
      if maxServices.None? {
        return None;
      }
      return Some((flags.value, (maxMembers.value, maxServices.value)));
    }

    method BackPart() returns (r: Option<Back>)
      requires Valid()
      modifies this
      ensures Valid() && Matches(BackFormat().read(old(Rest())), r, Rest())
    {
      hide Listed, RelayFormat, PresenceFormat, SecretsFormat, PolicyFormat;
      var relays := Relays();
      if relays.None? {
        return None;
      }
      var presence := PresenceServices();
      if presence.None? {
        return None;
      }
      var secrets := Secrets();
      if secrets.None? {
        return None;
      }
      var policy := Policy();
      if policy.None? {
        return None;
      }
      var (index, (encryption, (discovery, access))) := secrets.value;
      var (flags, (maxMembers, maxServices)) := policy.value;
      return Some(Back(relays.value, presence.value, (index, encryption, discovery, access), flags, maxMembers, maxServices));
    }

    method ZonePart(second: bool) returns (r: Option<seq<DnsRow>>)
      requires Valid()
      modifies this
      ensures Valid() && Matches(ReadZone(second, old(Rest())), r, Rest())
    {
      hide ZoneFormat;
      if second {
        r := Zone();
      } else {
        r := Some([]);
      }
    }

    method AtEnd() returns (r: bool)
      requires Valid()
      ensures r == (Rest() == [])
    {
      r := offset == |bytes|;
    }

    /** What follows the magic: field by field, nothing left over, and a legal shape. */
    method Body(second: bool) returns (r: Option<Snapshot>)
      requires Valid()
      modifies this
      ensures r == DecodeBody(second, old(Rest()))
    {
      hide FrontFormat, ZoneFormat, BackFormat, Shape, ReadZone, Rest;
      var front := FrontPart();
      if front.None? {
        return None;
      }
      var zone := ZonePart(second);
      if zone.None? {
        return None;
      }
      var back := BackPart();
      if back.None? {
        return None;
      }
      var atEnd := AtEnd();
      var s := Snapshot(front.value, zone.value, back.value);
      return if atEnd && Shape(s) then Some(s) else None;
    }
  }

  /** `from_bytes`: the magic decides the version. */
  method FromBytes(bytes: Bytes) returns (r: Option<Snapshot>)
    ensures r == Decode(bytes)
  {
    hide DecodeBody;
    if !(MAGIC_V2 <= bytes) && !(MAGIC_V1 <= bytes) {
      return None;
    }
    var decoder := new Decoder(bytes[8..]);
    r := decoder.Body(MAGIC_V2 <= bytes);
  }
}
