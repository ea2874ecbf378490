/** The byte keys under which records are stored. Distinct records never share a key, so modelling
    keys as data loses nothing. */
module RecordKeys {
  import opened Prelude
  import opened Wire
  import AuthorityLog
  import Replica

  /** An ASCII literal as bytes. */
  function Text(s: string): Bytes {
    seq(|s|, i requires 0 <= i < |s| => if s[i] < 128 as char then s[i] as int else 0)
  }

  /** The authority's keys. Invitation identifiers are 32 bytes. */
  function AuthorityKey(k: AuthorityLog.Key): Bytes {
    match k
    case EnvelopeKey => Text("authority/config/envelope/v1")
    case HeadKey => Text("authority/config/head/v1")
    case HistoryKey(revision) => Text("authority/config/history/v1/") + BE(revision, 8)
    case InvitationKey(id) => Text("authority/invitation/v1/") + BE(id, 32)
  }

  /** A member's keys. */
  function MemberKey(k: Replica.Slot): Bytes {
    match k
    case ConfigEnvelope => Text("config/envelope/v1")
    case ConfigHead => Text("config/head/v1")
    case ConfigSigner => Text("config/signer-certificate/v1")
    case ConfigHistory(revision) => Text("config/history/v1/") + BE(revision, 8)
    case OwnCertificate => Text("membership/certificate/v1")
    case OwnBinding => Text("membership/endpoint-binding/v1")
    case PreparedRequest => Text("join/prepared/v1")
  }

  lemma SuffixInjective(prefix: Bytes, m: nat, n: nat, width: nat)
    requires m < Pow256(width) && n < Pow256(width) && prefix + BE(m, width) == prefix + BE(n, width)
    ensures m == n
  {
    assert (prefix + BE(m, width))[|prefix|..] == BE(m, width) && (prefix + BE(n, width))[|prefix|..] == BE(n, width);
    ReadWritten(m, width);
    ReadWritten(n, width);
  }

  lemma AuthorityKeysDistinct(a: AuthorityLog.Key, b: AuthorityLog.Key)
    requires a.InvitationKey? ==> a.id < Pow256(32)
    requires b.InvitationKey? ==> b.id < Pow256(32)
    requires AuthorityKey(a) == AuthorityKey(b)
    ensures a == b
  {
    hide BE, FromBE;
    Widths();
    assert |AuthorityKey(a)| == |AuthorityKey(b)|;
    if a.HistoryKey? && b.HistoryKey? {
      SuffixInjective(Text("authority/config/history/v1/"), a.revision, b.revision, 8);
    } else if a.InvitationKey? && b.InvitationKey? {
      SuffixInjective(Text("authority/invitation/v1/"), a.id, b.id, 32);
    }
  }

  lemma MemberKeysDistinct(a: Replica.Slot, b: Replica.Slot)
    requires MemberKey(a) == MemberKey(b)
    ensures a == b
  {
    hide BE, FromBE;
    Widths();
    assert |MemberKey(a)| == |MemberKey(b)|;
    if a.ConfigHistory? && b.ConfigHistory? {
      SuffixInjective(Text("config/history/v1/"), a.revision, b.revision, 8);
    }
  }
}
