/** What holds along every line of revisions an authority can produce, whoever committed them:
    membership and epochs, key wraps, revocation, serial numbers, and the authority's own head. */
module AuthorityHistory {
  import opened Prelude
  import opened Credentials
  import opened Configs
  import opened SnapshotValidation
  import opened Envelopes
  import opened Validator
  import opened AuthorityOps
  import opened AuthorityLog
  import opened AuthorityInvariant

  /** The operations that change who is a member. */
  predicate ChangesMembership(op: Operation) {
    op.Invite? || op.Redeem? || op.Revoke?
  }

  /** Every revision after the first was made by a named operation. */
  predicate NamedLog(log: seq<Entry>) {
    forall i :: 0 < i < |log| && log[i].origin.Applied? ==> Named(log[i].origin.op)
  }

  // ---- what one operation does to the fields of a snapshot ----

  /** Administrators, window and policy never change; membership, bindings and secrets change
      exactly with the epoch. */
  predicate DraftFrame(c: Config, next: Config, op: Operation) {
    && next.network == c.network && next.adminKeys == c.adminKeys && next.expiresAt == c.expiresAt && next.policy == c.policy
    && (if ChangesMembership(op) then next.epoch == c.epoch + 1
        else next.epoch == c.epoch && next.members == c.members && next.endpointBindings == c.endpointBindings && next.secrets == c.secrets)
    && (op.Revoke? || next.revoked == c.revoked)
  }

  lemma EnrolFrame(keys: AuthorityKeys, c: Config, head: Head, op: Operation, now: u64, d: Draft)
    requires op.Invite? || op.Redeem?
    requires DraftOf(keys, c, head, op, now) == Ok(d)
    ensures DraftFrame(c, d.next, op)
  {
    hide VerifyJoin, EnsureJoinUnique, NextSerial, IssueMemberByAdmin, VerifyMemberWithAdmin, VerifyEndpoint, RedeemChecks, IssueAppBinding;
  }

  lemma RevokeFrame(keys: AuthorityKeys, c: Config, head: Head, op: Operation, now: u64, d: Draft)
    requires op.Revoke?
    requires DraftOf(keys, c, head, op, now) == Ok(d)
    ensures DraftFrame(c, d.next, op)
  {
    hide MemberPosition, Retain, SortBy, EndpointsOf;
  }

  lemma OtherFrame(keys: AuthorityKeys, c: Config, head: Head, op: Operation, now: u64, d: Draft)
    requires Named(op) && !ChangesMembership(op)
    requires DraftOf(keys, c, head, op, now) == Ok(d)
    ensures DraftFrame(c, d.next, op)
  {
    hide Retain, SortBy, FindMember, FindEndpointBinding, VerifyAppRequest, IssueAppByAdmin, AppRegistered;
  }

  lemma NamedFrame(keys: AuthorityKeys, a: Entry, b: Entry)
    requires Succeeds(keys, a, b) && Named(b.origin.op)
    ensures DraftFrame(a.config, b.config, b.origin.op)
  {
    hide DraftOf, DraftFrame, Prepare;
    var op, now, choices := b.origin.op, b.origin.now, b.origin.choices;
    var plan := Prepare(keys, a.config, HeadOf(a.envelope), op, now, choices).value;
    PreparedPlan(keys, a.config, HeadOf(a.envelope), op, now, choices, plan);
    var d := DraftOf(keys, a.config, HeadOf(a.envelope), op, now).value;
    if op.Invite? || op.Redeem? {
      EnrolFrame(keys, a.config, HeadOf(a.envelope), op, now, d);
    } else if op.Revoke? {
      RevokeFrame(keys, a.config, HeadOf(a.envelope), op, now, d);
    } else {
      OtherFrame(keys, a.config, HeadOf(a.envelope), op, now, d);
    }
  }

  // ---- epochs ----

  lemma {:induction false} EpochsOrdered(keys: AuthorityKeys, log: seq<Entry>, i: nat, j: nat)
    requires Sequential(keys, log) && NamedLog(log) && i <= j < |log|
    ensures log[i].config.epoch <= log[j].config.epoch
    ensures log[i].config.epoch == log[j].config.epoch ==>
              && log[i].config.members == log[j].config.members
              && log[i].config.endpointBindings == log[j].config.endpointBindings
              && log[i].config.secrets == log[j].config.secrets
    decreases j
  {
    hide Succeeds, StartOk;
    if i < j {
      EpochsOrdered(keys, log, i, j - 1);
      assert Succeeds(keys, log[j - 1], log[j]);
      SucceedsApplied(keys, log[j - 1], log[j]);
      NamedFrame(keys, log[j - 1], log[j]);
    }
  }

  lemma SucceedsApplied(keys: AuthorityKeys, a: Entry, b: Entry)
    requires Succeeds(keys, a, b)
    ensures b.origin.Applied?
  {
    hide Prepare;
  }

  /** Two revisions of one epoch have the same members, endpoint bindings and epoch secrets. */
  lemma EpochDeterminesMembership(keys: AuthorityKeys, log: seq<Entry>, i: nat, j: nat)
    requires Sequential(keys, log) && NamedLog(log) && i < |log| && j < |log|
    requires log[i].config.epoch == log[j].config.epoch
    ensures log[i].config.members == log[j].config.members
    ensures log[i].config.endpointBindings == log[j].config.endpointBindings
    ensures log[i].config.secrets == log[j].config.secrets
  {
    hide Sequential, NamedLog;
    if i <= j {
      EpochsOrdered(keys, log, i, j);
    } else {
      EpochsOrdered(keys, log, j, i);
    }
  }

  // ---- key wraps ----

  /** The envelope is wrapped exactly once to each current member and to nobody else, and a key
      pair finds the content key exactly when it belongs to a member. */
  ghost predicate WrappedToMembers(e: Envelope, c: Config) {
    && Distinct(Recipients(e)) && Elements(Recipients(e)) == MemberKeys(c) && |Recipients(e)| == |c.members|
    && (forall k :: FindContentKey(e.body.wraps, k, AadOf(e.body)) == if k in MemberKeys(c) then Some(e.body.ciphertext.contentKey) else None)
  }

  /** Every revision is wrapped to exactly its members, was valid when it was made, and can be
      read by the authority. */
  lemma RevisionFacts(keys: AuthorityKeys, log: seq<Entry>, i: nat)
    requires Sequential(keys, log) && i < |log|
    ensures Carries(log[i].envelope, log[i].config) && WrappedToMembers(log[i].envelope, log[i].config)
    ensures log[i].config.network == keys.Network() && ValidAt(log[i].config, keys.root, log[i].config.issuedAt)
    ensures keys.encryption in MemberKeys(log[i].config)
    ensures i > 0 ==> log[i].envelope.body.signer == AdminKeyId(keys.adminKey) && Verifies(keys.adminKey, log[i].envelope.body, log[i].envelope.signature)
  {
    hide Prepare, ValidAt, FindContentKey, MemberKeys, Recipients, Distinct;
    if i > 0 {
      var a, b := log[i - 1], log[i];
      assert Succeeds(keys, a, b);
      var plan := Prepare(keys, a.config, HeadOf(a.envelope), b.origin.op, b.origin.now, b.origin.choices).value;
      PreparedPlan(keys, a.config, HeadOf(a.envelope), b.origin.op, b.origin.now, b.origin.choices, plan);
    }
  }

  // ---- revocation ----

  /** As many distinct encryption keys as members: no two members share one. */
  lemma MemberKeysInjective(c: Config, i: nat, j: nat)
    requires AllDecode(c.members) && |MemberKeys(c)| == |c.members| && i < j < |c.members|
    ensures c.members[i].value.payload.encryptionKey != c.members[j].value.payload.encryptionKey
  {
    var all := seq(|c.members|, n requires 0 <= n < |c.members| => c.members[n].value.payload.encryptionKey);
    forall k | k in MemberKeys(c)
      ensures k in all
    {
      var n :| 0 <= n < |c.members| && c.members[n].value.payload.encryptionKey == k;
      assert all[n] == k;
    }
    assert Elements(all) == MemberKeys(c);
    DistinctCardinality(all);
    assert all[i] != all[j];
  }

  /** The join request of an enrolling operation. */
  function RequestOf(op: Operation): JoinPayload
    requires op.Invite? || op.Redeem?
  {
    if op.Invite? then op.request.payload else op.prepared.request.payload
  }

  /** Enrolment appends one certificate, made for the requester's keys under the next serial. */
  lemma EnrolAppends(keys: AuthorityKeys, c: Config, head: Head, op: Operation, now: u64, d: Draft) returns (m: MemberCert)
    requires op.Invite? || op.Redeem?
    requires DraftOf(keys, c, head, op, now) == Ok(d)
    ensures d.next.members == c.members + [Wire(m)]
    ensures d.ticket.Some? && d.ticket.value.member == m && d.next.endpointBindings == c.endpointBindings + [Wire(d.ticket.value.binding)]
    ensures m.payload.signingKey == RequestOf(op).signingKey && m.payload.encryptionKey == RequestOf(op).encryptionKey
    ensures NextSerial(c) == Ok(m.payload.serial)
    ensures EnsureJoinUnique(c, RequestOf(op)).Ok?
  {
    hide EnsureJoinUnique, NextSerial, VerifyMemberWithAdmin, VerifyEndpoint, RedeemChecks, IssueAppBinding;
    m := d.ticket.value.member;
  }

  /** Revocation drops one certificate and adds its serial to the revoked ones. */
  lemma RevokeRemoves(keys: AuthorityKeys, c: Config, head: Head, op: Operation, now: u64, d: Draft) returns (p: nat)
    requires op.Revoke? && DraftOf(keys, c, head, op, now) == Ok(d)
    ensures p < |c.members| && c.members[p].Wire? && c.members[p].value.payload.memberId == op.member
    ensures MemberPosition(c.members, op.member) == Some(p)
    ensures c.members[p].value.payload.encryptionKey != keys.encryption
    ensures d.next.members == c.members[..p] + c.members[p + 1..]
    ensures forall x: u64 :: x in d.next.revoked <==> x in c.revoked || x == c.members[p].value.payload.serial
  {
    hide Retain, EndpointsOf, SortBy;
    MemberPositionFinds(c.members, op.member);
    p := MemberPosition(c.members, op.member).value;
    forall x: u64
      ensures x in d.next.revoked <==> x in c.revoked || x == c.members[p].value.payload.serial
    {
      SortMember(c.revoked + [c.members[p].value.payload.serial], (a: u64, b: u64) => a <= b, x);
    }
  }

  lemma DraftOfRevision(keys: AuthorityKeys, a: Entry, b: Entry) returns (d: Draft)
    requires Succeeds(keys, a, b)
    ensures b.origin.Applied? && DraftOf(keys, a.config, HeadOf(a.envelope), b.origin.op, b.origin.now) == Ok(d) && d.next == b.config
  {
    hide Prepare, DraftOf;
    var op, now, choices := b.origin.op, b.origin.now, b.origin.choices;
    var plan := Prepare(keys, a.config, HeadOf(a.envelope), op, now, choices).value;
    PreparedPlan(keys, a.config, HeadOf(a.envelope), op, now, choices, plan);
    d := Draft(plan.config, plan.ticket);
  }

  /** The revision enrols this key pair. */
  predicate Enrols(e: Entry, k: EncryptionKey) {
    e.origin.Applied? && (e.origin.op.Invite? || e.origin.op.Redeem?) && RequestOf(e.origin.op).encryptionKey == k
  }

  /** The revision revokes the member of its predecessor `c` that holds this key pair. */
  predicate Revokes(c: Config, e: Entry, k: EncryptionKey) {
    && e.origin.Applied? && e.origin.op.Revoke?
    && exists p :: 0 <= p < |c.members| && c.members[p].Wire?
                && c.members[p].value.payload.memberId == e.origin.op.member && c.members[p].value.payload.encryptionKey == k
  }

  lemma HasMemberKey(c: Config, i: nat)
    requires i < |c.members| && c.members[i].Wire?
    ensures c.members[i].value.payload.encryptionKey in MemberKeys(c)
  {
  }

  lemma EnrolledKeys(c: Config, next: Config, m: MemberCert, k: EncryptionKey)
    requires next.members == c.members + [Wire(m)]
    ensures k in MemberKeys(next) <==> k in MemberKeys(c) || k == m.payload.encryptionKey
  {
    if k in MemberKeys(c) {
      var i :| 0 <= i < |c.members| && c.members[i].Wire? && c.members[i].value.payload.encryptionKey == k;
      assert next.members[i] == c.members[i];
    }
    assert next.members[|c.members|] == Wire(m);
    HasMemberKey(next, |c.members|);
  }

  lemma RemovedKeys(c: Config, next: Config, p: nat, k: EncryptionKey)
    requires AllDecode(c.members) && |MemberKeys(c)| == |c.members|
    requires p < |c.members| && next.members == c.members[..p] + c.members[p + 1..]
    ensures k in MemberKeys(next) <==> k in MemberKeys(c) && k != c.members[p].value.payload.encryptionKey
  {
    if k in MemberKeys(next) {
      var i :| 0 <= i < |next.members| && next.members[i].Wire? && next.members[i].value.payload.encryptionKey == k;
      if i < p {
        MemberKeysInjective(c, i, p);
        HasMemberKey(c, i);
      } else {
        assert next.members[i] == c.members[i + 1];
        MemberKeysInjective(c, p, i + 1);
        HasMemberKey(c, i + 1);
      }
    }
    if k in MemberKeys(c) && k != c.members[p].value.payload.encryptionKey {
      var i :| 0 <= i < |c.members| && c.members[i].Wire? && c.members[i].value.payload.encryptionKey == k;
      var n := if i < p then i else i - 1;
      assert next.members[n] == c.members[i];
      HasMemberKey(next, n);
    }
  }

  lemma WrappedKeyCount(e: Envelope, c: Config)
    requires WrappedToMembers(e, c)
    ensures |MemberKeys(c)| == |c.members|
  {
    hide FindContentKey, MemberKeys, Recipients;
    DistinctCardinality(Recipients(e));
  }

  lemma ValidMembers(c: Config, root: PublicKey, now: u64)
    requires ValidAt(c, root, now)
    ensures AllDecode(c.members) && MembersDistinct(c.members)
  {
    hide Shape, AdminsValid, EndpointsValid, AppsValid, AppBindingsValid, DnsValid, DescriptorsValid;
  }

  lemma RevokedIsUnique(c: Config, p: nat, e: Entry, k: EncryptionKey)
    requires AllDecode(c.members) && MembersDistinct(c.members) && p < |c.members|
    requires e.origin.Applied? && e.origin.op.Revoke? && c.members[p].value.payload.memberId == e.origin.op.member
    ensures Revokes(c, e, k) <==> k == c.members[p].value.payload.encryptionKey
  {
  }

  lemma RevokedKeys(keys: AuthorityKeys, log: seq<Entry>, j: nat, k: EncryptionKey)
    requires Sequential(keys, log) && 0 < j < |log| && log[j].origin.Applied? && log[j].origin.op.Revoke?
    ensures k in MemberKeys(log[j].config) <==> k in MemberKeys(log[j - 1].config) && !Revokes(log[j - 1].config, log[j], k)
  {
    hide Succeeds, DraftOf, ValidAt, StartOk, MemberKeys, MemberPosition, WrappedToMembers, Revokes;
    var a, b := log[j - 1], log[j];
    assert Succeeds(keys, a, b);
    var d := DraftOfRevision(keys, a, b);
    var p := RevokeRemoves(keys, a.config, HeadOf(a.envelope), b.origin.op, b.origin.now, d);
    RevisionFacts(keys, log, j - 1);
    ValidMembers(a.config, keys.root, a.config.issuedAt);
    WrappedKeyCount(a.envelope, a.config);
    RemovedKeys(a.config, b.config, p, k);
    RevokedIsUnique(a.config, p, b, k);
  }

  /** A key pair is a member's at a revision exactly when that revision enrols it, or it was a
      member's before and the revision does not revoke it. */
  lemma MembershipStep(keys: AuthorityKeys, log: seq<Entry>, j: nat, k: EncryptionKey)
    requires Sequential(keys, log) && NamedLog(log) && 0 < j < |log|
    ensures k in MemberKeys(log[j].config) <==>
            Enrols(log[j], k) || (k in MemberKeys(log[j - 1].config) && !Revokes(log[j - 1].config, log[j], k))
  {
    hide Succeeds, DraftOf, StartOk, MemberKeys;
    var a, b := log[j - 1], log[j];
    assert Succeeds(keys, a, b);
    var d := DraftOfRevision(keys, a, b);
    var op := b.origin.op;
    if op.Invite? || op.Redeem? {
      var m := EnrolAppends(keys, a.config, HeadOf(a.envelope), op, b.origin.now, d);
      EnrolledKeys(a.config, b.config, m, k);
    } else if op.Revoke? {
      RevokedKeys(keys, log, j, k);
    } else {
      NamedFrame(keys, a, b);
      SameMemberKeys(a.config, b.config);
    }
  }

  lemma SameMemberKeys(c: Config, d: Config)
    requires c.members == d.members
    ensures MemberKeys(c) == MemberKeys(d)
  {
  }

  /** A revoked key pair decrypts neither the revision that revoked it nor any later one, whatever
      chain position the reader assumes, until some revision enrols it again. */
  lemma {:induction false} RevokedCannotDecrypt(keys: AuthorityKeys, log: seq<Entry>, i: nat, j: nat, k: EncryptionKey, chain: Chain)
    requires Sequential(keys, log) && NamedLog(log) && 0 < i <= j < |log|
    requires Revokes(log[i - 1].config, log[i], k)
    requires forall n :: i < n <= j ==> !Enrols(log[n], k)
    ensures k !in MemberKeys(log[j].config)
    ensures Decrypt(log[j].envelope, k, chain) == if ChainOk(log[j].envelope, chain) then Err(NoRecipientWrap) else Err(ChainMismatch)
    decreases j
  {
    hide Sequential, NamedLog, MemberKeys, ValidAt, Carries, ChainOk, FindContentKey, Recipients;
    if i < j {
      RevokedCannotDecrypt(keys, log, i, j - 1, k, chain);
    }
    MembershipStep(keys, log, j, k);
    RevisionFacts(keys, log, j);
  }

  // ---- serial numbers ----

  predicate IsMember(c: Config, m: MemberCert) {
    Wire(m) in c.members
  }

  lemma MemberSerialKnown(c: Config, m: MemberCert)
    requires IsMember(c, m)
    ensures KnownSerial(c, m.payload.serial)
  {
    var i :| 0 <= i < |c.members| && c.members[i] == Wire(m);
    assert MemberSerials(c)[i] == m.payload.serial;
  }

  /** The administrators' and members' serials of a snapshot are pairwise distinct. */
  predicate SerialsDistinct(c: Config) {
    Distinct(AdminSerials(c) + MemberSerials(c))
  }

  /** No serial is forgotten: what a revision knows, its successor knows. */
  lemma SerialsRemembered(keys: AuthorityKeys, a: Entry, b: Entry, x: u64)
    requires Succeeds(keys, a, b) && Named(b.origin.op) && KnownSerial(a.config, x) && AllDecode(a.config.members)
    ensures KnownSerial(b.config, x)
  {
    hide Succeeds, DraftOf, MemberPosition, NextSerial, EnsureJoinUnique;
    var d := DraftOfRevision(keys, a, b);
    var op := b.origin.op;
    NamedFrame(keys, a, b);
    SameAdminSerials(a.config, b.config);
    if x in MemberSerials(a.config) {
      var i :| 0 <= i < |a.config.members| && MemberSerials(a.config)[i] == x;
      if op.Invite? || op.Redeem? {
        var m := EnrolAppends(keys, a.config, HeadOf(a.envelope), op, b.origin.now, d);
        assert MemberSerials(b.config)[i] == x;
      } else if op.Revoke? {
        var p := RevokeRemoves(keys, a.config, HeadOf(a.envelope), op, b.origin.now, d);
        if i != p {
          assert MemberSerials(b.config)[if i < p then i else i - 1] == x;
        }
      } else {
        assert MemberSerials(b.config)[i] == x;
      }
    } else if op.Revoke? {
      var p := RevokeRemoves(keys, a.config, HeadOf(a.envelope), op, b.origin.now, d);
    }
  }

  lemma SameAdminSerials(c: Config, d: Config)
    requires c.adminKeys == d.adminKeys
    ensures AdminSerials(c) == AdminSerials(d)
  {
  }

  lemma {:induction false} SerialsKept(keys: AuthorityKeys, log: seq<Entry>, i: nat, j: nat, x: u64)
    requires Sequential(keys, log) && NamedLog(log) && i <= j < |log| && KnownSerial(log[i].config, x)
    ensures KnownSerial(log[j].config, x)
    decreases j
  {
    hide Succeeds, StartOk, KnownSerial, ValidAt, Carries, WrappedToMembers;
    if i < j {
      SerialsKept(keys, log, i, j - 1, x);
      SucceedsApplied(keys, log[j - 1], log[j]);
      RevisionFacts(keys, log, j - 1);
      ValidMembers(log[j - 1].config, keys.root, log[j - 1].config.issuedAt);
      SerialsRemembered(keys, log[j - 1], log[j], x);
    }
  }

  /** A certificate that appears at a revision was there before, or has a serial above all that
      were known. */
  lemma NewcomerSerial(keys: AuthorityKeys, a: Entry, b: Entry, m: MemberCert)
    requires Succeeds(keys, a, b) && Named(b.origin.op) && IsMember(b.config, m) && !IsMember(a.config, m)
    ensures b.origin.op.Invite? || b.origin.op.Redeem?
    ensures b.config.members == a.config.members + [Wire(m)]
    ensures forall x: u64 :: KnownSerial(a.config, x) ==> x < m.payload.serial
  {
    hide Succeeds, DraftOf, MemberPosition, NextSerial, EnsureJoinUnique, KnownSerial;
    var d := DraftOfRevision(keys, a, b);
    var op := b.origin.op;
    if op.Invite? || op.Redeem? {
      var n := EnrolAppends(keys, a.config, HeadOf(a.envelope), op, b.origin.now, d);
      NextSerialIsLeastFresh(a.config);
    } else if op.Revoke? {
      var p := RevokeRemoves(keys, a.config, HeadOf(a.envelope), op, b.origin.now, d);
      assert false;
    } else {
      NamedFrame(keys, a, b);
      assert false;
    }
  }

  /** Member certificates are never reissued under a used serial: over the whole log, certificates
      with one serial are one certificate. */
  lemma {:induction false} SerialsNeverReissued(keys: AuthorityKeys, log: seq<Entry>, i: nat, j: nat, m: MemberCert, n: MemberCert)
    requires Sequential(keys, log) && NamedLog(log) && SerialsDistinct(log[0].config) && i <= j < |log|
    requires IsMember(log[i].config, m) && IsMember(log[j].config, n) && m.payload.serial == n.payload.serial
    ensures m == n
    decreases j
  {
    hide Succeeds, StartOk, KnownSerial, IsMember, SerialsDistinct;
    if j == 0 {
      StartSerials(log[0].config, m, n);
    } else {
      assert Succeeds(keys, log[j - 1], log[j]);
      SucceedsApplied(keys, log[j - 1], log[j]);
      if IsMember(log[j - 1].config, n) {
        if i < j {
          SerialsNeverReissued(keys, log, i, j - 1, m, n);
        } else if IsMember(log[j - 1].config, m) {
          SerialsNeverReissued(keys, log, j - 1, j - 1, m, n);
        } else {
          NewcomerSerial(keys, log[j - 1], log[j], m);
          MemberSerialKnown(log[j - 1].config, n);
        }
      } else {
        NewcomerSerial(keys, log[j - 1], log[j], n);
        if i < j {
          MemberSerialKnown(log[i].config, m);
          SerialsKept(keys, log, i, j - 1, m.payload.serial);
        } else {
          Newcomers(keys, log[j - 1], log[j], m, n);
        }
      }
    }
  }

  lemma StartSerials(c: Config, m: MemberCert, n: MemberCert)
    requires SerialsDistinct(c) && IsMember(c, m) && IsMember(c, n) && m.payload.serial == n.payload.serial
    ensures m == n
  {
    var i :| 0 <= i < |c.members| && c.members[i] == Wire(m);
    var j :| 0 <= j < |c.members| && c.members[j] == Wire(n);
    var all := AdminSerials(c) + MemberSerials(c);
    assert all[|AdminSerials(c)| + i] == m.payload.serial;
    assert all[|AdminSerials(c)| + j] == n.payload.serial;
  }

  /** Of two equal serials at one revision, the newcomer's is neither older nor another newcomer's. */
  lemma Newcomers(keys: AuthorityKeys, a: Entry, b: Entry, m: MemberCert, n: MemberCert)
    requires Succeeds(keys, a, b) && Named(b.origin.op) && m.payload.serial == n.payload.serial
    requires IsMember(b.config, m) && IsMember(b.config, n) && !IsMember(a.config, n)
    ensures m == n
  {
    hide Succeeds, KnownSerial;
    NewcomerSerial(keys, a, b, n);
    if IsMember(a.config, m) {
      MemberSerialKnown(a.config, m);
    }
  }

  /** The revoked serials only accumulate. */
  lemma {:induction false} RevokedGrows(keys: AuthorityKeys, log: seq<Entry>, i: nat, j: nat)
    requires Sequential(keys, log) && NamedLog(log) && i <= j < |log|
    ensures RevokedSet(log[i].config) <= RevokedSet(log[j].config)
    decreases j
  {
    hide Succeeds, StartOk, DraftOf, MemberPosition;
    if i < j {
      RevokedGrows(keys, log, i, j - 1);
      var a, b := log[j - 1], log[j];
      var d := DraftOfRevision(keys, a, b);
      NamedFrame(keys, a, b);
      if b.origin.op.Revoke? {
        var p := RevokeRemoves(keys, a.config, HeadOf(a.envelope), b.origin.op, b.origin.now, d);
      }
    }
  }

  /** No member ever gets an administrator's serial either. */
  lemma {:induction false} AdminSerialsApart(keys: AuthorityKeys, log: seq<Entry>, j: nat, n: MemberCert, x: u64)
    requires Sequential(keys, log) && NamedLog(log) && SerialsDistinct(log[0].config) && j < |log|
    requires IsMember(log[j].config, n) && x in AdminSerials(log[0].config)
    ensures log[j].config.adminKeys == log[0].config.adminKeys && n.payload.serial != x
    decreases j
  {
    hide Succeeds, StartOk, NextSerial;
    if j == 0 {
      StartApart(log[0].config, n, x);
    } else {
      SucceedsApplied(keys, log[j - 1], log[j]);
      AdminsKept(keys, log, j - 1);
      NamedFrame(keys, log[j - 1], log[j]);
      SameAdminSerials(log[0].config, log[j - 1].config);
      if IsMember(log[j - 1].config, n) {
        AdminSerialsApart(keys, log, j - 1, n, x);
      } else {
        NewcomerSerial(keys, log[j - 1], log[j], n);
        assert KnownSerial(log[j - 1].config, x);
      }
    }
  }

  lemma StartApart(c: Config, n: MemberCert, x: u64)
    requires SerialsDistinct(c) && IsMember(c, n) && x in AdminSerials(c)
    ensures n.payload.serial != x
  {
    var i :| 0 <= i < |AdminSerials(c)| && AdminSerials(c)[i] == x;
    var j :| 0 <= j < |c.members| && c.members[j] == Wire(n);
    var all := AdminSerials(c) + MemberSerials(c);
    assert all[i] == x && all[|AdminSerials(c)| + j] == n.payload.serial;
  }

  lemma {:induction false} AdminsKept(keys: AuthorityKeys, log: seq<Entry>, j: nat)
    requires Sequential(keys, log) && NamedLog(log) && j < |log|
    ensures log[j].config.adminKeys == log[0].config.adminKeys
    decreases j
  {
    hide Succeeds, StartOk;
    if j > 0 {
      AdminsKept(keys, log, j - 1);
      SucceedsApplied(keys, log[j - 1], log[j]);
      NamedFrame(keys, log[j - 1], log[j]);
    }
  }

  /** Once a serial is revoked, no later revision contains a member certificate with it, and no
      snapshot that remembers the revocation and contains one is valid at any time. */
  lemma RevokedSerialExcluded(keys: AuthorityKeys, log: seq<Entry>, i: nat, j: nat, m: MemberCert, c: Config, now: u64)
    requires Sequential(keys, log) && NamedLog(log) && i <= j < |log| && m.payload.serial in RevokedSet(log[i].config)
    ensures !IsMember(log[j].config, m)
    ensures RevokedSet(log[j].config) <= RevokedSet(c) && IsMember(c, m) ==> !ValidAt(c, keys.root, now)
  {
    hide Sequential, ValidAt, NamedLog, WrappedToMembers, Carries;
    RevokedGrows(keys, log, i, j);
    RevisionFacts(keys, log, j);
    if IsMember(log[j].config, m) {
      RevokedMemberInvalid(log[j].config, keys.root, log[j].config.issuedAt, m);
    }
    if RevokedSet(log[j].config) <= RevokedSet(c) && IsMember(c, m) {
      RevokedMemberInvalid(c, keys.root, now, m);
    }
  }

  lemma RevokedMemberInvalid(c: Config, root: PublicKey, now: u64, m: MemberCert)
    requires IsMember(c, m) && m.payload.serial in RevokedSet(c)
    ensures !ValidAt(c, root, now)
  {
    hide ValidAt;
    if ValidAt(c, root, now) {
      NoRevokedSerial(c, root, now);
    }
  }

  // ---- the authority's own place ----

  /** Member `p` holds the authority's encryption key and role, and the authority's endpoint is
      bound to it. */
  predicate AuthorityAt(keys: AuthorityKeys, c: Config, p: nat) {
    && p < |c.members| && c.members[p].Wire?
    && c.members[p].value.payload.encryptionKey == keys.encryption && ROLE_AUTHORITY in c.members[p].value.payload.roles
    && var b := FindEndpointBinding(c.endpointBindings, keys.endpoint);
       b.Some? && b.value.memberId == c.members[p].value.payload.memberId
  }

  ghost predicate AuthorityPresent(keys: AuthorityKeys, c: Config) {
    exists p :: AuthorityAt(keys, c, p)
  }

  lemma PresentHasRole(keys: AuthorityKeys, c: Config)
    requires AuthorityPresent(keys, c)
    ensures AuthorityRoleValid(keys, c)
  {
  }

  lemma {:induction false} FindBindingAppend(raws: seq<Raw<EndpointBinding>>, x: Raw<EndpointBinding>, endpoint: EndpointId)
    requires FindEndpointBinding(raws, endpoint).Some?
    ensures FindEndpointBinding(raws + [x], endpoint) == FindEndpointBinding(raws, endpoint)
  {
    assert (raws + [x])[0] == raws[0] && (raws + [x])[1..] == raws[1..] + [x];
    if !(raws[0].Wire? && raws[0].value.payload.endpoint == endpoint) {
      FindBindingAppend(raws[1..], x, endpoint);
    }
  }

  lemma {:induction false} FindBindingRetain(raws: seq<Raw<EndpointBinding>>, keep: Raw<EndpointBinding> -> bool, endpoint: EndpointId)
    requires var b := FindEndpointBinding(raws, endpoint); b.Some? && forall raw :: raw in raws && raw.Wire? && raw.value.payload == b.value ==> keep(raw)
    ensures FindEndpointBinding(Retain(raws, keep), endpoint) == FindEndpointBinding(raws, endpoint)
  {
    assert raws == [raws[0]] + raws[1..];
    if raws[0].Wire? && raws[0].value.payload.endpoint == endpoint {
      assert Retain(raws, keep) == [raws[0]] + Retain(raws[1..], keep);
    } else {
      FindBindingRetain(raws[1..], keep, endpoint);
      if keep(raws[0]) {
        assert Retain(raws, keep) == [raws[0]] + Retain(raws[1..], keep);
      } else {
        assert Retain(raws, keep) == Retain(raws[1..], keep);
      }
    }
  }

  lemma RevokeKeepsBinding(keys: AuthorityKeys, c: Config, head: Head, op: Operation, now: u64, d: Draft, endpoint: EndpointId)
    requires op.Revoke? && DraftOf(keys, c, head, op, now) == Ok(d)
    requires var b := FindEndpointBinding(c.endpointBindings, endpoint); b.Some? && b.value.memberId != op.member
    ensures FindEndpointBinding(d.next.endpointBindings, endpoint) == FindEndpointBinding(c.endpointBindings, endpoint)
  {
    hide EndpointsOf, SortBy, MemberPosition, Retain, FindEndpointBinding;
    FindBindingRetain(c.endpointBindings, (raw: Raw<EndpointBinding>) => raw.Wire? && raw.value.payload.memberId != op.member, endpoint);
  }

  lemma AuthoritySurvivesRevoke(keys: AuthorityKeys, c: Config, head: Head, op: Operation, now: u64, d: Draft, p: nat)
    requires op.Revoke? && DraftOf(keys, c, head, op, now) == Ok(d) && MembersDistinct(c.members) && AuthorityAt(keys, c, p)
    ensures AuthorityPresent(keys, d.next)
  {
    hide DraftOf, MemberPosition, FindEndpointBinding;
    var q := RevokeRemoves(keys, c, head, op, now, d);
    assert p != q;
    RevokeKeepsBinding(keys, c, head, op, now, d, keys.endpoint);
    var n := if p < q then p else p - 1;
    assert d.next.members[n] == c.members[p];
    assert AuthorityAt(keys, d.next, n);
  }

  lemma AuthoritySurvives(keys: AuthorityKeys, a: Entry, b: Entry)
    requires Succeeds(keys, a, b) && Named(b.origin.op) && AuthorityPresent(keys, a.config) && MembersDistinct(a.config.members)
    ensures AuthorityPresent(keys, b.config)
  {
    hide Succeeds, DraftOf, MembersDistinct, NextSerial, EnsureJoinUnique, FindEndpointBinding;
    var d := DraftOfRevision(keys, a, b);
    var op := b.origin.op;
    var p :| AuthorityAt(keys, a.config, p);
    if op.Invite? || op.Redeem? {
      var m := EnrolAppends(keys, a.config, HeadOf(a.envelope), op, b.origin.now, d);
      FindBindingAppend(a.config.endpointBindings, Wire(d.ticket.value.binding), keys.endpoint);
      assert AuthorityAt(keys, b.config, p);
    } else if op.Revoke? {
      AuthoritySurvivesRevoke(keys, a.config, HeadOf(a.envelope), op, b.origin.now, d, p);
    } else {
      NamedFrame(keys, a, b);
      assert AuthorityAt(keys, b.config, p);
    }
  }

  /** No named operation can lock the authority out: its member, role and endpoint stay. */
  lemma {:induction false} AuthorityStays(keys: AuthorityKeys, log: seq<Entry>, j: nat)
    requires Sequential(keys, log) && NamedLog(log) && AuthorityPresent(keys, log[0].config) && j < |log|
    ensures AuthorityPresent(keys, log[j].config)
    decreases j
  {
    hide Succeeds, StartOk, AuthorityPresent, ValidAt, Carries, WrappedToMembers;
    if j > 0 {
      AuthorityStays(keys, log, j - 1);
      SucceedsApplied(keys, log[j - 1], log[j]);
      RevisionFacts(keys, log, j - 1);
      ValidMembers(log[j - 1].config, keys.root, log[j - 1].config.issuedAt);
      AuthoritySurvives(keys, log[j - 1], log[j]);
    }
  }

  /** The manifest's administrator certificate is in order, leaving its validity window aside. */
  predicate ManifestOk(keys: AuthorityKeys) {
    && AdminTimeless(keys.adminCert, keys.root, {})
    && keys.Admin().publicKey == keys.adminKey && PERMISSION_CONFIG_WRITE in keys.Admin().permissions
  }

  /** Signed as `open` expects: the genesis by the root key, and named by the manifest; every later
      revision by the online administrator. */
  predicate SignedAsOpened(keys: AuthorityKeys, e: Envelope) {
    if e.body.revision == 0 then
      && e.body.previous == ZeroHash && Digest(e) == keys.genesis
      && e.body.signer == RootKeyId(keys.root) && Verifies(keys.root, e.body, e.signature)
    else e.body.signer == AdminKeyId(keys.adminKey) && Verifies(keys.adminKey, e.body, e.signature)
  }

  /** A start of the authority's own: it has its place in the snapshot, the snapshot lists the
      manifest's certificate, and the envelope is signed as `open` expects. */
  ghost predicate OwnStart(keys: AuthorityKeys, start: Entry) {
    && StartOk(keys, start) && ManifestOk(keys) && SignedAsOpened(keys, start.envelope)
    && AuthorityPresent(keys, start.config) && Wire(keys.adminCert) in start.config.adminKeys
  }

  lemma OpenChecksIff(keys: AuthorityKeys, e: Envelope, c: Config, now: u64)
    requires ManifestOk(keys) && SignedAsOpened(keys, e) && Carries(e, c) && WrappedToMembers(e, c) && keys.encryption in MemberKeys(c)
    requires c.network == keys.Network() && AuthorityRoleValid(keys, c)
    ensures OpenChecks(keys, e, HeadOf(e), now).Ok? <==>
            keys.Admin().notBefore <= now < keys.Admin().expires && ValidAt(c, keys.root, now)
  {
    hide ValidAt, MemberKeys, Recipients, FindContentKey, AuthorityRoleValid;
  }

  /** The first certificate with a key id is the only one, so it is the one that is found. */
  lemma {:induction false} OnlyAdminFound(raws: seq<Raw<AdminCert>>, i: nat, root: PublicKey, network: NetworkId, now: u64, revoked: set<u64>)
    requires i < |raws| && AllDecode(raws) && AdminsDistinct(raws) && VerifyAdmin(raws[i].value, root, network, now, revoked).Ok?
    ensures VerifiedAdmin(raws, root, network, raws[i].value.payload.keyId, now, revoked) == Ok(raws[i].value.payload)
  {
    hide VerifyAdmin;
    VerifiedIsPayload(raws[i].value, root, network, now, revoked);
    if i > 0 {
      assert raws[0].value.payload.keyId != raws[i].value.payload.keyId;
      assert AdminsDistinct(raws[1..]);
      OnlyAdminFound(raws[1..], i - 1, root, network, now, revoked);
    }
  }

  lemma VerifiedIsPayload(cert: AdminCert, root: PublicKey, network: NetworkId, now: u64, revoked: set<u64>)
    requires VerifyAdmin(cert, root, network, now, revoked).Ok?
    ensures VerifyAdmin(cert, root, network, now, revoked).value == cert.payload && cert.payload.notBefore <= now < cert.payload.expires
  {
  }

  /** A snapshot that lists the manifest's certificate is valid only while the certificate is, and
      then passes the last check of `open`. */
  lemma ManifestListed(keys: AuthorityKeys, c: Config, now: u64)
    requires ManifestOk(keys) && Wire(keys.adminCert) in c.adminKeys && ValidAt(c, keys.root, now)
    ensures keys.Admin().notBefore <= now < keys.Admin().expires && AdminListed(keys, c, now)
  {
    hide Shape, MembersValid, EndpointsValid, AppsValid, AppBindingsValid, DnsValid, DescriptorsValid, VerifyAdmin, VerifiedAdmin;
    var i :| 0 <= i < |c.adminKeys| && c.adminKeys[i] == Wire(keys.adminCert);
    assert AdminOk(c, keys.root, now, c.adminKeys[i]);
    VerifiedIsPayload(keys.adminCert, keys.root, c.network, now, RevokedSet(c));
    OnlyAdminFound(c.adminKeys, i, keys.root, c.network, now, RevokedSet(c));
  }

  lemma OwnRevision(keys: AuthorityKeys, log: seq<Entry>, j: nat)
    requires Sequential(keys, log) && NamedLog(log) && OwnStart(keys, log[0]) && j < |log|
    ensures SignedAsOpened(keys, log[j].envelope) && Wire(keys.adminCert) in log[j].config.adminKeys && AuthorityRoleValid(keys, log[j].config)
  {
    hide Sequential, NamedLog, ValidAt, WrappedToMembers, AuthorityPresent, StartOk, ManifestOk, MemberKeys, AuthorityRoleValid, Carries;
    AuthorityStays(keys, log, j);
    PresentHasRole(keys, log[j].config);
    AdminsKept(keys, log, j);
    if j > 0 {
      RevisionFacts(keys, log, j);
      SequentialIsLinked(keys, log);
    }
  }

  /** Exactly when an authority can reopen its own revision: while the snapshot as a whole is
      valid, whose interval ends with the first expiry of anything in it, not only of what belongs
      to the authority. */
  lemma OwnHeadOpensExactlyWhen(keys: AuthorityKeys, log: seq<Entry>, j: nat, now: u64)
    requires Sequential(keys, log) && NamedLog(log) && OwnStart(keys, log[0]) && j < |log|
    ensures OpenChecks(keys, log[j].envelope, HeadOf(log[j].envelope), now).Ok? && AdminListed(keys, log[j].config, now) <==>
            ValidFrom(log[j].config) <= now < ValidUntil(log[j].config)
    ensures OpenChecks(keys, log[j].envelope, HeadOf(log[j].envelope), now).Ok? ==>
            AdminListed(keys, log[j].config, now) && keys.Admin().notBefore <= now < keys.Admin().expires
  {
    hide Sequential, NamedLog, ValidAt, WrappedToMembers, AuthorityPresent, SignedAsOpened, StartOk, OpenChecks, AdminListed, ManifestOk, MemberKeys,
         ValidFrom, ValidUntil, ValidIgnoringTime, AuthorityRoleValid, Carries;
    RevisionFacts(keys, log, j);
    OwnRevision(keys, log, j);
    OpenChecksIff(keys, log[j].envelope, log[j].config, now);
    if ValidAt(log[j].config, keys.root, now) {
      ManifestListed(keys, log[j].config, now);
    }
    ValidityInterval(log[j].config, keys.root, now);
    ValidityInterval(log[j].config, keys.root, log[j].config.issuedAt);
  }
}
