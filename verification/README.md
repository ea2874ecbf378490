# The control plane of Weaver, modelled and proved

Weaver keeps a private overlay network together with a small replicated log. One authority appends
signed, encrypted, hash-chained configuration revisions; members pull them, check them and keep
them; invitations and revocations are transactions on the same log; and everything is stored in a
versioned compare-and-swap store. This project models that control plane in Dafny and proves what
it promises over whole runs, interleavings and crashes. `dafny verify dfyconfig.toml` checks it.

## How the model is laid out

- `Prelude`, `Limits`: outcomes, 64-bit numbers with checked increments, the formats' bounds.
- `Credentials`, `Configs`, `SnapshotValidation`, `Validator`: the certificate chain, snapshots, and the
  multi-pass validator against its declarative meaning. `CredentialLaws` says exactly which
  credentials are accepted and whose they are.
- `Envelopes`, `UpdateBatches`: sealing, opening, chain expectations, runs of revisions in transit.
- `VersionedStore`, `StateStores`, `RecordKeys`: the abstract versioned map, the in-memory store,
  and the redb store as a refinement over flat byte rows.
- `AuthorityOps`: the named operations as functions from one snapshot to the next.
  `AuthorityEffects` and `AdmissionEffects` say when each is accepted and what it leaves behind.
- `AuthorityLog`: any number of authority handles over one store, one step at a time.
  `AuthorityInvariant` has the invariant and its steps; `AuthorityRuns` and `AuthorityNamedRuns`
  the theorems about runs; `AuthorityHistory` what holds along any line of revisions;
  `AuthorityVersions` which revision a handle's cached versions stand for; `AuthorityHandle` the
  object with its fields; `AuthorityUpdates` the serving of updates.
- `AuthorityOpening`, `Initialization`: opening a handle as a run, and the start that
  initialization gives. `FirstGuest` follows any new network through its first invitation,
  `FirstRedemption` through its first redeemed one, and `OwnHeadExample` one such network.
- `Replica`, `ReplicaRuns`, `ReplicaInvariant`, `ReplicaAgreement`, `ReplicaLaws`,
  `ReplicaBatching`, `ReplicaReopening`, `ReplicaVersions`, `ReplicaState`: the member's side of
  the same log.
- `Membership`, `JoinRuns`, `IdentityCreation`, `JoinPreparation`: joining, with the tickets that
  schedules hand out, and crash-safe creation of secrets.
- `Wire`, `Formats`, `SnapshotCodec`, `SnapshotDecoder`, `EnvelopeCodec`: the byte formats.
- `Presence`, `PresenceObjects`, `Authorization`: the presence cache and the readings of a snapshot.

## What is taken as given

- Cryptography is symbolic. A hash is an injective constructor; a signature names its key and its
  exact message; a key wrap (HPKE base mode, section 5.1.1 of RFC 9180) opens for one key pair;
  identifiers are derived injectively. For members the one thing assumed of the outside world is
  that an envelope with an administrator's signature is a committed revision.
- Time, random words, fresh invitation identifiers, iteration orders and parse results of relay
  URLs are parameters.
- A commit, a read and a secret-store operation are atomic and durable; between any two of them
  anything may happen, a crash included.
- Credential bytes inside a snapshot are either a decoded credential or marked as undecodable.
- Some statements the code might be expected to meet turn out false. Each is given with its exact
  condition and an input on which it fails: that an authority can open its head while its own
  credentials are current (`AuthorityOpening.OpensExactlyWhen`, `OwnHeadExample.OwnHeadMayNotOpen`);
  that the ticket of a committed invitation is good (`AuthorityRuns.InviteTicketGoodExactlyWhen`,
  `OwnHeadExample.InviteTicketMayBeSpoiled`); that a handle with current versions caches the last
  revision (`AuthorityVersions.RedemptionTruthfulExactlyWhen`,
  `AuthorityVersions.CurrentVersionsCacheLast`, `OwnHeadExample.RedemptionMayMislead`); that an
  accepted update batch survives its own encoding (`EnvelopeCodec.BatchRoundTripExactlyWhen`,
  `EnvelopeCodec.AcceptedBatchMayNotComeBack`);
  that presence sequences never go back (`Presence.RollbackAfterPurgeExactlyWhen`,
  `Presence.PurgeAllowsRollback`).

## Model

| member | source | states |
|---|---|---|
| `AuthorityInvariant.StepKeepsInv` | crates/weaver-relay-core/src/lib.rs:313-615 | every step of opening, sealing, committing, reading back, inviting, redeeming and revoking, by any handle in any state, keeps the invariant that ties records, sessions and invitations to one line of revisions, and loses nothing committed before; the own-revision check of the read-back is stated by `AuthorityVersions.KeepsOwnRevisionExactlyWhen` |
| `AuthorityRuns.Linearizable` | crates/weaver-relay-core/src/lib.rs:546-615 | in every schedule the committed revisions form one hash-linked line that begins at the first revision, each is what its own operation makes of its predecessor, and the envelope, head and history records show exactly that line |
| `AuthorityRuns.NoFork` | crates/weaver-relay-core/src/lib.rs:546-615 | once a revision is in the history it stays there unchanged for ever, the line only grows, and no head is extended twice |
| `AuthorityRuns.HandlesAgree` | crates/weaver-relay-core/src/lib.rs:546-615 | two handles that reach one revision, at whatever moments, hold the same snapshot and head |
| `AuthorityRuns.StaleCommitFails` | crates/weaver-relay-core/src/lib.rs:568-587 | a commit prepared from any but the last revision is refused and writes nothing, even when its handle holds current record versions |
| `AuthorityInvariant.CommitsAtEnd` | crates/weaver-relay-core/src/lib.rs:582-587 | the demand that the new history record be missing is what confines commits to the end of the line |
| `AuthorityVersions.CommitsExactlyWhen` | crates/weaver-relay-core/src/lib.rs:568-587 | in any store a revision is written exactly if envelope and head are at the versions the handle last saw, its history record is missing, and the invitation it redeems is at the version it was read |
| `AuthorityVersions.KeepsOwnRevisionExactlyWhen` | crates/weaver-relay-core/src/lib.rs:588-615 | in every reachable world an operation ends with its own revision cached under the current versions exactly if that revision is still the last; overtaken, the handle keeps what it had |
| `AuthorityVersions.CurrentVersionsCacheLast` | crates/weaver-relay-core/src/lib.rs:588-615 | in every schedule, whatever the others do, a handle that has made no redemption and holds a current version caches the last revision, snapshot and head |
| `AuthorityVersions.RedemptionTruthfulExactlyWhen` | crates/weaver-relay-core/src/invitation.rs:325-343 | a redemption takes whatever versions it reads back: its handle is right about the head its version names exactly if nobody has overtaken it |
| `AuthorityVersions.StepMoves` | crates/weaver-relay-core/src/lib.rs:313-615 | at every step either the log and both current records stay, or the log grows by one entry and both records get fresh versions |
| `AuthorityRuns.ExactlyOnce` | crates/weaver-relay-core/src/invitation.rs:181-345 | in every schedule an invitation admits at most one member, its record is consumed exactly when some revision redeemed it, and all tickets ever returned for it are the one ticket that the redemption which made that revision issued |
| `AuthorityRuns.RetryReturnsSameTicket` | crates/weaver-relay-core/src/invitation.rs:195-203 | redeeming again, at any later moment and through any handle, returns the same ticket to the same request, refuses any other request, and leaves store and line as they are |
| `AuthorityInvariant.RedemptionConsumes` | crates/weaver-relay-core/src/invitation.rs:303-325 | admission and consumption are one batch: a redemption that commits found its invitation unused and leaves the consumed record with its ticket |
| `AuthorityRuns.InviteTicketGoodExactlyWhen` | crates/weaver-relay-core/src/lib.rs:687-705 | `invite_member` reads the envelope once more without checking it: its ticket is the proper one exactly while its own revision is the last, and is refused by every check at every time otherwise |
| `AuthorityRuns.InterveningCommitSpoilsTicket` | crates/weaver-relay-core/src/lib.rs:687-705 | any revision committed between the two reads of an invitation makes its ticket unacceptable |
| `FirstRedemption.GuestIsAdmitted` | crates/weaver-relay-core/src/invitation.rs:128-343 | for every initialized network: open, register an application, invite, redeem; the guest is in the next snapshot, one ticket is returned, the invitation is used up |
| `FirstRedemption.GuestJoins` | crates/weaver-net/src/membership.rs:228-316 | and the guest joins with that ticket exactly from the redemption until its admission ends, and is a replica of the line from there |
| `FirstRedemption.OvertakenRedemptionMisleads` | crates/weaver-relay-core/src/invitation.rs:325-343 | if another handle commits before the redemption has read its head back, the redeeming handle rests with its own revision under the version of a later head |
| `OwnHeadExample.RedemptionMayMislead` | crates/weaver-relay-core/src/invitation.rs:325-343 | such a run, from an initialization to the misled handle |
| `AuthorityNamedRuns.NamedRunsHaveNamedLogs` | crates/weaver-relay-core/src/lib.rs:617-962 | schedules that only perform named operations commit only named operations |
| `AuthorityNamedRuns.EpochDeterminesMembershipInRuns` | crates/weaver-relay-core/src/lib.rs:617-962 | in every such schedule two revisions of one epoch have the same members, endpoint bindings and epoch secrets, each envelope is wrapped to exactly its members, and the authority keeps its own place |
| `AuthorityNamedRuns.SerialsNeverReissuedInRuns` | crates/weaver-relay-core/src/lib.rs:1249-1262 | in every such schedule certificates with one serial are one certificate, whichever revisions they appear in |
| `Initialization.InitializesExactlyWhen` | crates/weaver-relay-core/src/lib.rs:1022-1191 | initialization succeeds exactly when URL and period are in order, the generated keys decode and the snapshot fits; it leaves the genesis snapshot, its records at versions 1 to 3 and a manifest that names it |
| `Initialization.InitializedStarts` | crates/weaver-relay-core/src/lib.rs:1022-1165 | what initialization leaves is a start of the authority's own: readable, wrapped to its founder, listing the manifest's certificate, signed as `open` expects, with distinct serials |
| `Initialization.FreshAuthorityOpens` | crates/weaver-relay-core/src/lib.rs:313-464 | a fresh authority opens from the moment of its initialization to the end of the period it was made for, and at no other time |
| `Initialization.InitializedRuns` | crates/weaver-relay-core/src/lib.rs:617-962 | every schedule of named operations on an initialized authority keeps the laws of epochs, wraps, serials and of opening |
| `AuthorityOpening.OpensExactlyWhen` | crates/weaver-relay-core/src/lib.rs:313-464 | in any state a schedule leaves, an undisturbed `open`, its history check and migration included, ends with a current handle on the last revision exactly while that revision's snapshot is valid as a whole, and otherwise changes nothing |
| `AuthorityOpening.OpensExactlyWhenInRuns` | crates/weaver-relay-core/src/lib.rs:313-464 | the same from every start of the authority's own, over every schedule of named operations |
| `AuthorityOpening.OpenThenCommit` | crates/weaver-relay-core/src/lib.rs:313-615 | whatever a schedule has left behind, a new handle that nobody disturbs commits every operation that can be prepared from the last revision while that is valid |
| `AuthorityOpening.AcceptsExactlyWhen` | crates/weaver-relay-core/src/lib.rs:347-412 | for any two records: accepted exactly if they belong together, the manifest is in force, the envelope is genuine and signed by the administrator, or is the manifest's own genesis signed by the root, and the snapshot gives the authority's endpoint the authority's role |
| `AuthorityOpening.HistoryDecides` | crates/weaver-relay-core/src/lib.rs:413-437 | the same envelope in the history lets a listed administrator in, none is to be seeded, any other closes the handle |
| `AuthorityOpening.SeedingDecides` | crates/weaver-relay-core/src/lib.rs:413-437 | seeding writes exactly the missing record and lets in a listed administrator only; a record written meanwhile closes the handle |
| `AuthorityOpening.CreatedIsStored` | crates/weaver-relay-core/src/invitation.rs:128-179 | creating an invitation adds exactly its record under an identifier never used before |
| `AuthorityOpening.RevocationIsRun` | crates/weaver-relay-core/src/invitation.rs:345-360 | the two steps of revoking an invitation, undisturbed: an unused record goes, a used or missing one stays, nothing else changes |
| `Initialization.FirstConfigOffers` | crates/weaver-relay-core/src/lib.rs:1022-1096 | the founder has every role, the administrator every permission, and the founder's endpoint one relay of every kind and one presence service |
| `Initialization.GenesisNeedsRoom` | crates/weaver-relay-core/src/lib.rs:1128-1146 | the genesis batch commits exactly where no authority is yet |
| `AuthorityHandle.Authority.CommitOperation` | crates/weaver-relay-core/src/lib.rs:546-615 | the method that overwrites the cached snapshot, head and versions does so exactly as the sequential specification says, and changes nothing on failure before the commit |
| `AuthorityHandle.Authority.InviteMember` | crates/weaver-relay-core/src/lib.rs:617-706 | undisturbed, it commits the enrolment and returns the proper ticket |
| `AuthorityHandle.Authority.RedeemInvitation` | crates/weaver-relay-core/src/invitation.rs:181-343 | all paths of a redemption in the source's order; who is admitted and what is granted is stated by `AdmissionEffects.RedeemAdmitsExactlyWhen` and `AdmissionEffects.RedeemGrants`, what the paths amount to by the next two rows |
| `AuthorityHandle.RedeemIsRun` | crates/weaver-relay-core/src/invitation.rs:181-343 | an undisturbed redemption is the run of its five separate steps: same records, same cached fields, same ticket returned or refused, one more revision exactly if it committed, and nothing else changed |
| `AuthorityHandle.UndisturbedRedemptionSucceeds` | crates/weaver-relay-core/src/invitation.rs:181-343 | with nobody else at work a current handle redeems an unused invitation, returns its plan's ticket, keeps it in the consumed record and is current again |
| `AuthorityHandle.Authority.RevokeInvitation` | crates/weaver-relay-core/src/invitation.rs:345-360 | an unused invitation record goes and nothing else changes; a used or missing one is refused |
| `AuthorityHandle.CommitIsRun` | crates/weaver-relay-core/src/lib.rs:546-615 | an undisturbed call is the run of its four separate steps: same records, same cached fields, one more revision exactly if it committed, and nothing else changed |
| `AuthorityHandle.UndisturbedCommitSucceeds` | crates/weaver-relay-core/src/lib.rs:546-615 | with nobody else at work a current handle commits whatever it can prepare, and is current again afterwards |
| `AuthorityHistory.EpochDeterminesMembership` | crates/weaver-relay-core/src/lib.rs:617-768 | along any line of named operations, equal epochs mean equal members, endpoint bindings and epoch secrets |
| `AuthorityHistory.RevisionFacts` | crates/weaver-config/src/lib.rs:710-731 | every revision is wrapped once to each current member and to nobody else, was valid when issued, is signed by the online administrator, and the authority is among its readers |
| `AuthorityHistory.MembershipStep` | crates/weaver-relay-core/src/lib.rs:617-768 | a key pair belongs to a revision exactly when that revision enrols it, or the one before had it and this one does not revoke it |
| `AuthorityHistory.RevokedCannotDecrypt` | crates/weaver-relay-core/src/lib.rs:708-768 | a revoked key pair decrypts neither the revoking revision nor any later one until some revision enrols it again |
| `AuthorityHistory.SerialsNeverReissued` | crates/weaver-relay-core/src/lib.rs:1249-1262 | over the whole line, member certificates with one serial are one certificate |
| `AuthorityHistory.AdminSerialsApart` | crates/weaver-relay-core/src/lib.rs:1249-1262 | administrators never change and no member is ever given an administrator's serial |
| `AuthorityHistory.RevokedGrows` | crates/weaver-relay-core/src/lib.rs:747-751 | revoked serials only accumulate |
| `AuthorityHistory.RevokedSerialExcluded` | crates/weaver-config/src/snapshot.rs:327-354 | after a revocation no later revision contains the serial, and no snapshot that remembers it and contains such a certificate is valid at any time |
| `AuthorityHistory.AuthorityStays` | crates/weaver-relay-core/src/lib.rs:724-726 | no named operation removes the authority's own member, role or endpoint |
| `AuthorityHistory.OwnHeadOpensExactlyWhen` | crates/weaver-relay-core/src/lib.rs:347-437 | any revision of the authority's own line, the first included, passes all checks of `open` exactly at the times in the interval of its whole snapshot, which ends with the first expiry of anything in it |
| `FirstGuest.GuestBoundsAccess` | crates/weaver-config/src/snapshot.rs:311-421 | for every initialized network and every guest it invites first: a new handle opens the head exactly until the guest's certificate runs out |
| `FirstGuest.FounderStays` | crates/weaver-config/src/snapshot.rs:311-421 | meanwhile the authority's own certificate, membership and endpoint last until the end of the network's period |
| `FirstGuest.RevocationRestoresAccess` | crates/weaver-relay-core/src/lib.rs:708-768 | if another handle revokes the guest in time, the head opens for the whole of that period |
| `FirstGuest.OvertakenTicketSpoiled` | crates/weaver-relay-core/src/lib.rs:687-705 | if another handle opens and commits before the invitation reads its ticket's envelope, that ticket verifies nowhere and never |
| `OwnHeadExample.OwnHeadMayNotOpen` | crates/weaver-config/src/snapshot.rs:311-421 | the stronger promise, that current credentials of its own suffice, fails: a run from an initialization in which one guest's certificate locks the authority out of a period it was made for |
| `OwnHeadExample.InviteTicketMayBeSpoiled` | crates/weaver-relay-core/src/lib.rs:687-705 | a run of two handles in which the ticket of a committed invitation is refused by every check |
| `OwnHeadExample.RevokedInTime` | crates/weaver-relay-core/src/lib.rs:708-768 | the first run with the guest revoked in time, where every later moment opens |
| `AuthorityEffects.RevokeErases` | crates/weaver-relay-core/src/lib.rs:708-768 | no endpoint binding, application binding, relay or presence service of the revoked member remains, and nothing of anybody else's goes |
| `AuthorityEffects.RevokeRemovesOne` | crates/weaver-relay-core/src/lib.rs:708-768 | the first certificate with the identifier goes, its serial joins the revoked ones, which are in order, and every other field is as it was |
| `AdmissionEffects.RevokeExactlyWhen` | crates/weaver-relay-core/src/lib.rs:708-768 | refused exactly for an unknown member, the authority itself, a serial revoked already, or a counter at its end |
| `AdmissionEffects.InviteAdmitsExactlyWhen` | crates/weaver-relay-core/src/lib.rs:617-706 | the exact condition under which a direct invitation is drafted: request, roles, period, binding, newcomer, administrator |
| `AdmissionEffects.InviteGrants` | crates/weaver-relay-core/src/lib.rs:617-706 | field by field: one certificate with exactly the granted roles until the earliest of five ends, one endpoint, a new epoch with new secrets, and every other field as it was |
| `AdmissionEffects.RedeemableExactlyWhen` | crates/weaver-relay-core/src/invitation.rs:181-194 | what a redemption demands of its arguments, and nothing more: an invitation of this network in force, signed by an administrator in force, for the application whose key is at hand, and a prepared join in order |
| `AdmissionEffects.RedeemAdmitsExactlyWhen` | crates/weaver-relay-core/src/invitation.rs:204-240 | the exact condition under which a redemption is drafted |
| `AdmissionEffects.RedeemGrants` | crates/weaver-relay-core/src/invitation.rs:204-275 | field by field: one certificate with the member role alone, the requester's endpoint, one client binding to the invitation's application, a new epoch with new secrets, the ticket's terms, and every other field as it was |
| `AdmissionEffects.RedeemedGuestReaches` | crates/weaver-net/src/lib.rs:1466-1543 | so from that revision on the guest's device address is granted at every server of that application until the admission ends |
| `AdmissionEffects.RegisterAppAdds` | crates/weaver-relay-core/src/lib.rs:770-801 | accepted exactly for a request signed by the application's own key while that application is not registered; adds the administrator's registration of exactly that key and policy |
| `AdmissionEffects.BindAppAdds` | crates/weaver-relay-core/src/lib.rs:803-817 | the binding is appended as it is, and nothing else changes |
| `AdmissionEffects.SetDnsExactlyWhen` | crates/weaver-relay-core/src/lib.rs:823-854 | accepted exactly for a registered application and an expiry after now and within the snapshot's |
| `AdmissionEffects.SetRelayExactlyWhen` | crates/weaver-relay-core/src/lib.rs:874-943 | accepted exactly for known roles and an endpoint whose member may relay, and bootstrap if asked to, with an expiry within the member's, the binding's and the snapshot's |
| `AdmissionEffects.InvitationLasts` | crates/weaver-relay-core/src/invitation.rs:128-179 | the exact condition and terms of a new invitation, which is redeemable from the administrator's start until exactly its expiry |
| `AuthorityEffects.SetDnsReplaces` | crates/weaver-relay-core/src/lib.rs:823-854 | exactly the name's record is replaced |
| `AuthorityEffects.SetDnsSorts` | crates/weaver-relay-core/src/lib.rs:844-851 | the records stay in the order of their names |
| `AuthorityEffects.SetDnsResolves` | crates/weaver-relay-core/src/lib.rs:823-854 | from then on the name resolves to the application until the record expires, and to nothing afterwards |
| `AuthorityEffects.RemoveDnsRemoves` | crates/weaver-relay-core/src/lib.rs:856-869 | refused exactly when the name has no record; otherwise exactly its records go |
| `AuthorityEffects.SetRelayReplaces` | crates/weaver-relay-core/src/lib.rs:874-943 | the endpoint's descriptors are replaced, and it has a presence service exactly if it asks for one |
| `AuthorityEffects.SetRelaySorts` | crates/weaver-relay-core/src/lib.rs:930-940 | relays and presence services stay in the order of their endpoints |
| `AuthorityOps.SortPermutes` | crates/weaver-relay-core/src/lib.rs:850-851 | sorting loses and doubles nothing |
| `AuthorityEffects.RemoveRelayRemoves` | crates/weaver-relay-core/src/lib.rs:945-962 | refused exactly when no relay has the endpoint; otherwise its relay and presence service go |
| `AuthorityOps.ComputeNextSerial` | crates/weaver-relay-core/src/lib.rs:1249-1262 | the three scans compute one maximum, with the malformed-credential and overflow errors |
| `AuthorityOps.NextSerialIsLeastFresh` | crates/weaver-relay-core/src/lib.rs:1249-1262 | the next serial is above every known serial, revoked ones included, and is the least such number |
| `AuthorityOps.PreparedPlan` | crates/weaver-relay-core/src/lib.rs:546-567 | what a prepared revision is: the drafted snapshot, chained to the head, sealed by the administrator to exactly its members, valid now and when issued, readable by the authority |
| `AuthorityOps.PreparesExactlyWhen` | crates/weaver-relay-core/src/lib.rs:546-567 | a draft can be prepared exactly when it can be sealed, is valid already and has the authority among its readers |
| `Envelopes.Shuffle` | crates/weaver-config/src/lib.rs:820-828 | the in-place shuffle leaves the array as the specification's permutation of it |
| `Envelopes.ShuffledPermutes` | crates/weaver-config/src/lib.rs:820-828 | whatever the random words, the shuffle only permutes |
| `Envelopes.SealedRecipients` | crates/weaver-config/src/lib.rs:223-280 | up to order, the key wraps of a sealed envelope are exactly the requested recipients |
| `Envelopes.SealedSize` | crates/weaver-config/src/lib.rs:223-280 | a sealed envelope takes its snapshot, a fixed frame with the authentication tag, and 84 bytes a recipient, and is within what a reader accepts |
| `Envelopes.RecipientSetExact` | crates/weaver-config/src/lib.rs:710-731 | an accepted recipient list names every member once and nobody else |
| `Envelopes.SealedNextOpens` | crates/weaver-config/src/lib.rs:376-504 | a sealed revision opens for a key exactly when that key is a member's, the predecessor still verifies the administrator and the revision is valid then; a non-member gets the no-wrap error |
| `Envelopes.OpensNextExactlyWhen` | crates/weaver-config/src/lib.rs:376-397 | any envelope opens as the next revision exactly if it is genuine for this reader, names its predecessor, and an administrator that the predecessor lists and lets write has signed it |
| `Envelopes.OpensCheckpointExactlyWhen` | crates/weaver-config/src/lib.rs:399-421 | and as a checkpoint exactly if it is genuine, is the very head, and this administrator may write and has signed it |
| `Envelopes.OpensGenesisExactlyWhen` | crates/weaver-config/src/lib.rs:473-483 | and as the first revision exactly if it is genuine and signed by the root |
| `Envelopes.SealsNextExactlyWhen` | crates/weaver-config/src/lib.rs:151-199 | a next revision is sealed exactly if predecessor and head belong together, the administrator is listed and may write, the chain goes on, the snapshot is valid and fits, and the recipients are the members |
| `Envelopes.SealsGenesisExactlyWhen` | crates/weaver-config/src/lib.rs:130-149 | and a first revision exactly if it is valid at its own time, fits, and the recipients are the members |
| `CredentialLaws.AdminAcceptedExactlyWhen` | crates/weaver-crypto/src/lib.rs:268-303 | an administrator certificate is accepted exactly if the root signed it for this network, its identifier is its key's, it is in force and not revoked |
| `CredentialLaws.MemberAcceptedExactlyWhen` | crates/weaver-crypto/src/lib.rs:719-796 | a member certificate exactly if the root signed it, or an administrator that may issue members within its own period |
| `CredentialLaws.EndpointAcceptedExactlyWhen` | crates/weaver-crypto/src/lib.rs:899-920 | an endpoint binding exactly if the member it names signed it for this network and endpoint, until it expires |
| `CredentialLaws.AppAcceptedExactlyWhen` | crates/weaver-crypto/src/lib.rs:1117-1158 | a registration exactly if its address is its key's and the root, or an administrator that may register, signed it |
| `CredentialLaws.AppRequestAcceptedExactlyWhen` | crates/weaver-crypto/src/lib.rs:1010-1026 | a request to register exactly if the application's own key signed it |
| `CredentialLaws.AppBindingAcceptedExactlyWhen` | crates/weaver-crypto/src/lib.rs:1249-1273 | an application binding exactly if the application's key signed it for this member, until it expires |
| `CredentialLaws.PreparedAcceptedExactlyWhen` | crates/weaver-crypto/src/lib.rs:493-503 | a prepared join exactly if request and binding are one requester's own, under one expiry, with nothing all-zero |
| `CredentialLaws.IssuedByAdminAccepted` | crates/weaver-crypto/src/lib.rs:651-703 | an administrator issues exactly within its own period and permission, and what it issues is accepted exactly while in force and not revoked |
| `CredentialLaws.RegisteredAppBinds` | crates/weaver-crypto/src/lib.rs:1061-1115 | a registered application's key makes bindings that are accepted until they expire |
| `CredentialLaws.CreatedPreparedAccepted` | crates/weaver-crypto/src/lib.rs:432-491 | a created prepared join is accepted until it expires |
| `CredentialLaws.MemberTraces` | crates/weaver-config/src/snapshot.rs:338-363 | every member of a valid snapshot goes back to the root, directly or through an administrator the root certified for it |
| `CredentialLaws.BindingsTrace` | crates/weaver-config/src/snapshot.rs:364-405 | every endpoint binding of a valid snapshot is signed by one of its members, every application binding by one of its applications for one of its members |
| `SnapshotValidation.ValidityInterval` | crates/weaver-config/src/snapshot.rs:311-457 | for a fixed snapshot the times of validity are one interval, from the latest start to the earliest expiry of anything but DNS records, or no time at all |
| `Validator.Validate` | crates/weaver-config/src/snapshot.rs:311-421 | the passes with their hash maps and sets succeed exactly on the snapshots the declarative meaning calls valid |
| `Validator.CheckMembers` | crates/weaver-config/src/snapshot.rs:338-363 | the member pass: verified by root or by a listed administrator, no duplicate, within the policy limit |
| `Validator.CheckShape` | crates/weaver-config/src/snapshot.rs:423-457 | the counts, lengths and descriptor bounds in the source's order |
| `Validator.CheckAppBindings` | crates/weaver-config/src/snapshot.rs:382-405 | the application-binding pass, with its three-part duplicate key |
| `Validator.EndpointBindingResolves` | crates/weaver-config/src/snapshot.rs:364-381 | an endpoint binding of a valid snapshot names exactly one verified member |
| `Validator.AppBindingResolves` | crates/weaver-config/src/snapshot.rs:382-405 | an application binding of a valid snapshot names exactly one verified member and one verified application |
| `Validator.NameHasOneTarget` | crates/weaver-config/src/snapshot.rs:474-480 | in a valid snapshot a name resolves to the target of its one unexpired record, a verified application |
| `Validator.NoRevokedSerial` | crates/weaver-config/src/snapshot.rs:327-354 | no certificate of a valid snapshot carries a revoked serial |
| `UpdateBatches.NewBatch` | crates/weaver-config/src/lib.rs:560-598 | the one-pass construction accepts exactly the linked runs of revisions within the limits |
| `ReplicaInvariant.MoveStands` | crates/weaver-net/src/config_state.rs:32-203 | every move of every handle on a member's store, deliveries of any authentic or garbage envelopes included, leaves the member on the authority's line and never moves it back; what a handle caches meanwhile is stated by `ReplicaVersions.CurrentVersionsCacheHead` |
| `ReplicaInvariant.WritesAtEnd` | crates/weaver-net/src/config_state.rs:145-176 | a batch commits only from the member's newest revision |
| `ReplicaVersions.WritesExactlyWhen` | crates/weaver-net/src/config_state.rs:145-176 | in any store an update is written exactly if all three records are at the versions the handle last saw and none of its revisions has a history record |
| `ReplicaVersions.KeepsOwnUpdateExactlyWhen` | crates/weaver-net/src/config_state.rs:177-203 | in every schedule a written update becomes the handle's state exactly if nobody has overtaken it when the head is read back, whatever happens afterwards; overtaken, the handle keeps the replica it had |
| `ReplicaVersions.CurrentVersionsCacheHead` | crates/weaver-net/src/config_state.rs:177-203 | in every schedule a handle at rest with a current envelope or head version caches the revision that the head record names, snapshot and head |
| `ReplicaRuns.FollowOnLog` | crates/weaver-net/src/config_state.rs:110-143 | a chain of envelopes that opens is a stretch of the line and ends where the line says |
| `ReplicaAgreement.HistoryIsASlice` | crates/weaver-net/src/config_state.rs:98-203 | in every schedule a member's retained history is one contiguous stretch of the line that ends at its head |
| `ReplicaAgreement.NeverGoesBack` | crates/weaver-net/src/config_state.rs:98-203 | a member's head never falls in revision or epoch, and its history never changes |
| `ReplicaAgreement.MembersAgree` | crates/weaver-net/src/config_state.rs:98-203 | any two members agree wherever their histories overlap, and handles at one revision hold one snapshot |
| `ReplicaLaws.OpensExactlyWhenReadable` | crates/weaver-config/src/lib.rs:376-397 | a committed revision opens for a follower exactly when the follower is a member of it, its predecessor verifies the administrator now, and it is valid now |
| `ReplicaLaws.FollowsExactlyWhenReadable` | crates/weaver-net/src/config_state.rs:115-143 | a stretch can be followed exactly when each of its revisions is readable |
| `ReplicaLaws.ServesTheStretch` | crates/weaver-net/src/config_state.rs:205-239 | `updates_after` answers a known head with exactly the revisions after it and fails only on the size limits; any other head is unknown |
| `ReplicaLaws.CatchUpAllOrNothing` | crates/weaver-net/src/config_state.rs:98-203 | a member handed a stretch ends exactly at its end, records and all, when the batch is within limits and each revision readable; otherwise store and handle are unchanged |
| `ReplicaLaws.ReopensExactlyWhen` | crates/weaver-net/src/config_state.rs:32-80 | the stored state opens to the same snapshot and head exactly while the stored certificate and the snapshot are in force and the member is in it |
| `ReplicaReopening.ReopensAfterAnyRun` | crates/weaver-net/src/config_state.rs:32-80 | after any schedule, an undisturbed `open` with its history seeding ends holding exactly the revision the member stands at, under exactly that condition, and otherwise changes nothing |
| `ReplicaReopening.HistoryRecordDecides` | crates/weaver-net/src/config_state.rs:273-297 | in any store the history record is accepted if it is the opened envelope, written if there is none, and anything else closes the replica |
| `ReplicaReopening.LateSeedingDecides` | crates/weaver-net/src/config_state.rs:287-297 | a seeding that comes too late holds the replica exactly if the record it finds is the envelope it opened |
| `ReplicaReopening.ApplyIsPlay` | crates/weaver-net/src/config_state.rs:98-203 | an undisturbed `apply` is the run of its five separate moves: same records, same cached fields, and nothing else changed |
| `ReplicaBatching.BatchingDoesNotMatter` | crates/weaver-net/src/config_state.rs:110-176 | an accepted chain cut anywhere is accepted in pieces too, and leaves the same snapshot, head and contents of every record |
| `ReplicaState.PersistedConfigState.Apply` | crates/weaver-net/src/config_state.rs:98-203 | the method with its loop, its batch and its three reads does what the specification says; no field changes before the batch is durable |
| `ReplicaState.PersistedConfigState.FollowAll` | crates/weaver-net/src/config_state.rs:115-143 | the loop opens the envelopes one after another and stops at the first error |
| `ReplicaState.PersistedConfigState.UpdatesAfter` | crates/weaver-net/src/config_state.rs:205-239 | the collecting loop with its error cases |
| `AuthorityUpdates.CollectUpdates` | crates/weaver-relay-core/src/lib.rs:525-533 | the collecting loop of `config_updates_after` |
| `AuthorityUpdates.AuthorityServesTheStretch` | crates/weaver-relay-core/src/lib.rs:503-539 | in every schedule a handle answers a committed head at or before its own with exactly the revisions between the two, and refuses every other head |
| `AuthorityUpdates.MemberCatchesUp` | crates/weaver-relay-core/src/lib.rs:503-539 | end to end, a member that applies the authority's answer ends exactly at the authority's snapshot and head, or has not changed at all |
| `Membership.JoinAcceptedExactlyWhen` | crates/weaver-net/src/membership.rs:228-316 | the ticket of an enrolment made at some time is accepted by its requester from that time until the ticket or anything in its revision runs out and at no other time; the node then stands at the ticket's head, and a refusal changes nothing |
| `Membership.AnyTicketAcceptedExactlyWhen` | crates/weaver-net/src/membership.rs:228-316 | for every ticket, whoever made it, and every store: `join` succeeds exactly if a request in order is prepared, the node has not joined, holds the secrets of the request, and the ticket answers it, nonce, endpoint and member included; it then holds exactly the ticket's head, envelope, signer, certificate and binding, and otherwise nothing has changed |
| `Membership.JoinCommits` | crates/weaver-net/src/membership.rs:286-316 | the batch is written exactly if none of its records is there and the prepared request is still at the version it was read |
| `JoinRuns.ReturnedTicketJoins` | crates/weaver-net/src/membership.rs:228-316 | in every schedule, every ticket that a redemption has returned, first or on a retry, is accepted by its requester in exactly that interval, and makes the node a replica of the line from that revision on |
| `JoinRuns.InviteTicketJoins` | crates/weaver-net/src/membership.rs:228-316 | in any world, the ticket of a direct invitation is accepted likewise while no later revision is committed, and by no node otherwise |
| `Membership.JoinChecksExactlyWhen` | crates/weaver-net/src/membership.rs:246-284 | all checks of `join` together, at every time |
| `Membership.TicketAtTime` | crates/weaver-relay-core/src/lib.rs:177-217 | the ticket of an enrolment verifies exactly from its issue to its own expiry and its binding's |
| `Membership.Node.AcceptTicket` | crates/weaver-net/src/membership.rs:228-316 | the method: every check in order, then one batch that writes the checkpoint, the certificate and the binding and consumes the prepared request; which tickets pass and what is left is `Membership.AnyTicketAcceptedExactlyWhen` |
| `Membership.ArrivedIsJoined` | crates/weaver-net/src/membership.rs:286-316 | a node that has joined with a committed revision is a replica of the line from there on |
| `IdentityCreation.AlwaysSafe` | crates/weaver-net/src/identity.rs:72-126 | any number of creators, any order of steps, crashes anywhere: the committed record is always backed by a stored secret that matches it |
| `IdentityCreation.NeverDangling` | crates/weaver-net/src/identity.rs:128-157 | at every moment a committed identity loads |
| `IdentityCreation.OneIdentity` | crates/weaver-net/src/identity.rs:72-126 | all creators that ever return give the one committed identity |
| `IdentityCreation.LoadsExactlyWhen` | crates/weaver-net/src/identity.rs:128-157 | a record loads exactly if its secret is there, has the committed public key, and the device is the derived one |
| `IdentityCreation.UndisturbedCreates` | crates/weaver-net/src/identity.rs:72-126 | where there is no identity, an undisturbed creator seals its key, commits its record and returns it |
| `IdentityCreation.UndisturbedLoads` | crates/weaver-net/src/identity.rs:72-126 | where there is one, it returns that one and changes nothing |
| `IdentityCreation.ReadsBackBeforeCommitting` | crates/weaver-net/src/identity.rs:72-126 | in any store, a record is committed only over a secret that reads back as written; over any other the creator fails and leaves everything as it is |
| `IdentityCreation.LoserCleansUp` | crates/weaver-net/src/identity.rs:72-126 | the loser of a race returns the winner's identity and removes its own secret and no other |
| `JoinPreparation.AlwaysSafe` | crates/weaver-net/src/membership.rs:176-225 | any number of preparers, crashes anywhere, a join in between: stored secrets never change and every request names them |
| `JoinPreparation.RequestsMatchSecrets` | crates/weaver-net/src/membership.rs:326-384 | a stored prepared request, and every request ever returned, names exactly the stored secrets |
| `JoinPreparation.OneRequest` | crates/weaver-net/src/membership.rs:176-225 | all preparers that return name the same three keys, and until a join the same request |
| `JoinPreparation.UndisturbedPrepares` | crates/weaver-net/src/membership.rs:176-225 | an undisturbed preparer keeps every secret there is, draws the missing ones, and commits and returns the request that names all three |
| `JoinPreparation.PreparedResumes` | crates/weaver-net/src/membership.rs:176-225 | a request prepared already is returned as it is |
| `JoinPreparation.BeatenReturnsWinner` | crates/weaver-net/src/membership.rs:176-225 | a preparer beaten to the commit returns the request that won |
| `JoinPreparation.JoinedRefuses` | crates/weaver-net/src/membership.rs:176-225 | after a join a preparer is refused and changes nothing |
| `VersionedStore.CommitEffect` | crates/weaver-store/src/lib.rs:354-400 | what a committed batch does to every key, under fresh versions |
| `VersionedStore.OrderAffectsOnlyVersions` | crates/weaver-store/src/lib.rs:354-400 | reordering a batch changes neither whether it commits nor any value |
| `VersionedStore.VersionNamesOneRecord` | crates/weaver-store/src/lib.rs:380-394 | over any run of commits a record version is never seen with two records |
| `StateStores.AtomicBatch.Add` | crates/weaver-store/src/lib.rs:150-190 | a batch names no key twice and keeps its key set true; refusals leave it as it was |
| `StateStores.MemoryStateStore.CommitBatch` | crates/weaver-store/src/lib.rs:354-400 | the two loops over the map and its counters do what the versioned map says, and report the first failing precondition |
| `StateStores.RedbStateStore.CommitBatch` | crates/weaver-store/src/redb_store.rs:145-210 | over flat byte rows the commit takes the model's batch, or changes nothing: on the first failing precondition and on overflow of either counter |
| `StateStores.RedbStateStore.Read` | crates/weaver-store/src/redb_store.rs:92-109 | reading decodes exactly the model's record |
| `StateStores.RedbStateStore.ScanPrefix` | crates/weaver-store/src/redb_store.rs:111-137 | a scan gives exactly the scope's records under the prefix, in ascending key order |
| `StateStores.CompositeInjective` | crates/weaver-store/src/redb_store.rs:222-236 | no two places share a row key |
| `StateStores.DecodeEncoded` | crates/weaver-store/src/redb_store.rs:238-254 | version and value survive their row encoding |
| `StateStores.ScopesApart` | crates/weaver-store/src/lib.rs:354-400 | a batch neither depends on nor touches another scope |
| `RecordKeys.AuthorityKeysDistinct` | crates/weaver-relay-core/src/lib.rs:1407-1412 | the authority's byte keys are pairwise distinct |
| `RecordKeys.MemberKeysDistinct` | crates/weaver-net/src/config_state.rs:266-271 | a member's byte keys are pairwise distinct |
| `SnapshotCodec.RoundTrip` | crates/weaver-config/src/snapshot.rs:158-207 | decoding the encoding of every encodable snapshot gives it back |
| `SnapshotCodec.Canonical` | crates/weaver-config/src/snapshot.rs:209-309 | every accepted second-version string is the encoding of its result |
| `SnapshotCodec.FirstVersionMeaning` | crates/weaver-config/src/snapshot.rs:209-309 | every accepted first-version string decodes like its second-version form, the same fields around an empty DNS zone, and re-encodes to that form |
| `SnapshotDecoder.FromBytes` | crates/weaver-config/src/snapshot.rs:209-309 | the offset-advancing decoder computes the specified decoding, all failures included |
| `SnapshotDecoder.Decoder.Blobs` | crates/weaver-config/src/snapshot.rs:672-687 | the counted loop of length-prefixed credentials |
| `SnapshotDecoder.Decoder.Text` | crates/weaver-config/src/snapshot.rs:689-698 | a bounded ASCII string |
| `SnapshotDecoder.Decoder.Take` | crates/weaver-config/src/snapshot.rs:627-638 | exactly so many bytes, or none and the offset stays |
| `EnvelopeCodec.SealedParses` | crates/weaver-config/src/lib.rs:506-537 | a sealed envelope parses to itself |
| `EnvelopeCodec.AcceptedIsCanonical` | crates/weaver-config/src/lib.rs:282-356 | an accepted envelope re-encodes to the received bytes, its fields encode to the signed bytes, and its hash is the hash of what was received |
| `EnvelopeCodec.AppendSigned` | crates/weaver-config/src/lib.rs:506-537 | the encoder that pushes field after field onto one buffer produces the specified encoding |
| `EnvelopeCodec.AppendBatch` | crates/weaver-config/src/lib.rs:600-616 | and so does the batch encoder |
| `EnvelopeCodec.BatchRoundTripExactlyWhen` | crates/weaver-config/src/lib.rs:600-645 | a valid batch survives the round trip exactly when its encoded size is within the limit |
| `EnvelopeCodec.AcceptedBatchMayNotComeBack` | crates/weaver-config/src/lib.rs:573-580 | `new` bounds the sum of the envelopes, `from_bytes` the encoded size: sixteen linked envelopes of one mebibyte are accepted and encoded, and then refused |
| `EnvelopeCodec.AcceptedBatchIsCanonical` | crates/weaver-config/src/lib.rs:618-645 | every accepted batch is the encoding of its result |
| `Presence.InverseAlways` | crates/weaver-discovery/src/lib.rs:986-1040 | after any sequence of records and purges the two indexes are each other's inverse |
| `Presence.SequencesNeverFall` | crates/weaver-discovery/src/lib.rs:986-998 | between purges an endpoint's record is only replaced by one with a higher sequence |
| `Presence.AddressNeverMoves` | crates/weaver-discovery/src/lib.rs:999-1005 | an address retained throughout a run never moves to another endpoint |
| `Presence.RollbackAfterPurgeExactlyWhen` | crates/weaver-discovery/src/lib.rs:1028-1040 | a purge forgets sequences: a refused rollback is accepted after it exactly when the newer record has run out and no surviving record of another endpoint holds one of its addresses |
| `Presence.PurgeAllowsRollback` | crates/weaver-discovery/src/lib.rs:1028-1040 | such a sequence: a newer record keeps an older one out, and after a purge the older one is taken and resolves |
| `Presence.PurgeInvisible` | crates/weaver-discovery/src/lib.rs:1017-1040 | no lookup at or after the purge time sees a difference |
| `Presence.PublishedIsLanPlusPresence` | crates/weaver-discovery/src/lib.rs:579-710 | after any history what is published for an endpoint is its local addresses followed by its cached presence, if its relay URLs parse, and by nothing without a record |
| `Presence.UnparsableIsCachedOnly` | crates/weaver-discovery/src/lib.rs:1077-1093 | a record with an unparsable relay URL is cached and resolvable, and what is published stays as it was |
| `PresenceObjects.PresenceCache.Apply` | crates/weaver-discovery/src/lib.rs:986-1015 | the method that updates both maps in place, with its three verdicts |
| `PresenceObjects.PresenceCache.PurgeExpired` | crates/weaver-discovery/src/lib.rs:1028-1040 | both maps keep exactly the unexpired records, and the removed endpoints are reported |
| `PresenceObjects.PresenceCache.Find` | crates/weaver-discovery/src/lib.rs:1017-1026 | only an unexpired record is found, so a lookup needs no purge before it |
| `PresenceObjects.WeaverAddressLookup.ApplyPresence` | crates/weaver-discovery/src/lib.rs:668-696 | the candidates are converted in order, or nothing changes |
| `PresenceObjects.WeaverAddressLookup.ApplyLanObservation` | crates/weaver-discovery/src/lib.rs:647-665 | only the local addresses change |
| `PresenceObjects.PresenceDirectory.ApplyAuthenticated` | crates/weaver-discovery/src/lib.rs:1077-1093 | cache first, lookup second, with the answers of both |
| `PresenceObjects.PresenceDirectory.PurgeExpired` | crates/weaver-discovery/src/lib.rs:1118-1126 | the lookup is cleared for exactly the endpoints left without a record |
| `Authorization.ScanClients` | crates/weaver-net/src/lib.rs:1466-1514 | the live pass over the application bindings computes the caller's client addresses for any snapshot and any time; what they mean is `Authorization.GrantedOnlyInForce` and `Authorization.GrantedExactlyWhen` |
| `Authorization.Derive` | crates/weaver-net/src/lib.rs:1564-1643 | the maps built in advance, with the error cases |
| `Authorization.GrantedOnlyInForce` | crates/weaver-net/src/lib.rs:1466-1543 | for every snapshot, however long ago it was valid, an address is granted only while the snapshot, both endpoint bindings, both certificates and both application bindings behind it are in force |
| `Authorization.GrantedExactlyWhen` | crates/weaver-net/src/lib.rs:1466-1543 | for a snapshot installed while valid and asked at any later time, the live scan grants exactly the addresses for which all of these are in force |
| `Authorization.ActsForOne` | crates/weaver-net/src/lib.rs:1517-1543 | the live lookup finds exactly the member whose binding and certificate are in force now |
| `Authorization.ViewsAgree` | crates/weaver-net/src/lib.rs:1466-1643 | on a snapshot valid now the live scan and the derived map give every endpoint the same clients, for every locally bound server |
| `Authorization.ValidEndpointMember` | crates/weaver-net/src/lib.rs:1517-1543 | in a valid snapshot an endpoint's member is the one it is bound to |
| `Authorization.ConfiguredEndpoint` | crates/weaver-discovery/src/lib.rs:1129-1173 | collect, sort, deduplicate, whatever the sort order: success means the address has one subject and that subject the one returned endpoint, `NotAuthorized` that there are no such two, and a malformed binding is reported only if there is one |
| `Authorization.PresenceMatchesConfigured` | crates/weaver-discovery/src/lib.rs:1233-1270 | when the snapshot resolves an address, any presence record accepted for it under the same snapshot and time names that endpoint |
| `Authorization.PresenceAuthorizedExactlyWhen` | crates/weaver-discovery/src/lib.rs:1233-1270 | a presence record is authorized exactly if a binding in force gives the member the endpoint and one gives it the address |
| `Authorization.SubjectIsTheOneGiven` | crates/weaver-discovery/src/lib.rs:1129-1173 | the subject settled on is the one member to whom a binding in force gives the address |
| `Authorization.EndpointIsTheOneHeld` | crates/weaver-discovery/src/lib.rs:1129-1173 | and the endpoint the one that a binding in force gives that member |

## Left out

- The wire codecs of certificates, join requests, tickets, invitations, consumed records, heads, identity records and presence payloads: they follow the same patterns as the snapshot and envelope codecs, which are modelled. Their edges are left out with them: an empty bootstrap relay that encodes but does not decode, and IPv6 flow and scope dropped from presence payloads.
- Real cryptography and randomness, and the opaque presence key and encryption: symbolic or parameters.
- Networking, relay servers, mDNS, timers, channels, command-line tools, file staging, manifests, directory sync and encrypted secret files: input and output.
- The staging directory, secret files and manifest file of `initialize`, and the membership reset, which deletes what the other properties are about.
- LAN discovery tags, retry backoff, the size limit of the opaque presence store, data relay URLs and candidate validation: true but easy.
- AuthorityHandle.Authority.CommitOperation: states one undisturbed call, which `AuthorityHandle.CommitIsRun` ties to the steps; calls that interleave are the subject of `AuthorityLog`, where each step is separate and the object is a session value, so aliasing of one handle is not modelled.
- ReplicaState.PersistedConfigState.Apply: states one undisturbed call and which calls succeed, not which of several batch errors a refused batch reports; interleaved calls are in `ReplicaRuns`.
- ReplicaLaws.ReopensExactlyWhen: stops before the history record; `ReplicaReopening.ReopensAfterAnyRun` goes on from any schedule.
- ReplicaState.PersistedConfigState.UpdatesAfter: reads all history records at one instant; `ReplicaAgreement.NeverGoesBack` says why the instant does not matter.
- UpdateBatches.NewBatch: says when construction succeeds and when the count limit or a malformed envelope is reported, not which error wins when several apply.
- SnapshotDecoder.FromBytes: says when decoding fails and what it returns, not which error it reports; the snapshot encoder is a function on byte strings instead of a buffer that is appended to.
- Validator.Validate: says exactly when validation succeeds, not which of several errors is reported.
- StateStores.MemoryStateStore.CommitBatch: its counters are unbounded, where the source's 64-bit counters would overflow after 2^64 records.
- StateStores.RedbStateStore.ScanPrefix: takes the table's key order as a parameter, as the database iterates it; a database error is not modelled.
- AuthorityHistory.EpochDeterminesMembership: for lines of named operations; a direct call of the public `commit_config` takes any snapshot of the caller's making, so it is part of the chain properties and not of those about epochs, serials and the authority's own place.
- Presence.PublishedIsLanPlusPresence: leaves open what is published while the cached record has an unparsable relay URL; `Presence.UnparsableIsCachedOnly` says that it stays as it was.
- IdentityCreation.AlwaysSafe: the steps work on values; a failed acknowledgement of a durable commit is a crash after the commit.
- JoinPreparation.OneRequest: a slow preparer may leave a request behind after a join, so requests returned on both sides of a join agree on keys only.
- Membership.JoinAcceptedExactlyWhen: for an undisturbed join by a node that awaits its ticket; the other states of the store are cases of the specification that `Membership.Node.AcceptTicket` meets. It speaks of a plan's own ticket; `JoinRuns` says which tickets schedules hand out.
- Authorization.Derive: relay URLs and the parsing of endpoint identifiers are left aside.
- Authorization.ConfiguredEndpoint: endpoint identifiers always parse, so the error for one that does not is left aside.
