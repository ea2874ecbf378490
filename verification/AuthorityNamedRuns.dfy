/** Runs in which handles only perform named operations: what holds along the line of revisions
    then holds in every such schedule. */
module AuthorityNamedRuns {
  import opened Prelude
  import opened Credentials
  import opened Configs
  import opened SnapshotValidation
  import opened Envelopes
  import opened AuthorityOps
  import opened VersionedStore
  import opened AuthorityLog
  import opened AuthorityInvariant
  import opened AuthorityRuns
  import opened AuthorityHistory

  predicate NamedSteps(steps: seq<Step>) {
    forall i :: 0 <= i < |steps| ==> NamedStep(steps[i])
  }

  predicate NamedStep(s: Step) {
    s.SealOperation? ==> Named(s.op)
  }

  /** No session is about to commit anything but a named operation. */
  predicate NamedSession(s: Session) {
    s.Ready? ==> (s.activity.Sealed? ==> Named(s.activity.plan.op)) && (s.activity.InvitationRead? ==> s.activity.op.Redeem?)
  }

  ghost predicate NamedWorld(w: World) {
    NamedLog(w.log) && forall h :: h in w.sessions ==> NamedSession(w.sessions[h])
  }

  lemma SealsNamed(keys: AuthorityKeys, w: World, s: Step)
    requires NamedWorld(w) && NamedStep(s) && (s.SealOperation? || s.SealRedemption?)
    ensures NamedWorld(Do(keys, w, s))
  {
    hide Prepare, NamedLog;
    match s
    case SealOperation(h, op, now, choices) =>
      var handle := IdleAt(w, h);
      if handle.Some? && Prepare(keys, handle.value.config, handle.value.head, op, now, choices).Ok? {
        PreparedNames(keys, handle.value.config, handle.value.head, op, now, choices);
      }
    case SealRedemption(h, choices) =>
      if h in w.sessions && w.sessions[h].Ready? && w.sessions[h].activity.InvitationRead? {
        assert NamedSession(w.sessions[h]);
        var handle, a := w.sessions[h].handle, w.sessions[h].activity;
        if Prepare(keys, handle.config, handle.head, a.op, a.now, choices).Ok? {
          PreparedNames(keys, handle.config, handle.head, a.op, a.now, choices);
        }
      }
  }

  lemma CommitsNamed(keys: AuthorityKeys, w: World, h: nat)
    requires NamedWorld(w)
    ensures NamedWorld(StepCommit(keys, w, h))
  {
    hide Commit, PlanBatch;
    if h in w.sessions && w.sessions[h].Ready? && w.sessions[h].activity.Sealed? {
      assert NamedSession(w.sessions[h]);
      var v := StepCommit(keys, w, h);
      assert forall i :: 0 <= i < |w.log| ==> v.log[i] == w.log[i];
    }
  }

  lemma OthersNamed(keys: AuthorityKeys, w: World, s: Step)
    requires NamedWorld(w) && !s.SealOperation? && !s.SealRedemption? && !s.CommitPlan?
    ensures NamedWorld(Do(keys, w, s))
  {
    hide NamedLog, OpenChecks, AdminListed, Commit, RedeemChecks, TicketOf, MakeInvitation, StepSeal, StepSealRedemption, StepCommit;
  }

  lemma {:induction false} NamedRunsHaveNamedLogs(keys: AuthorityKeys, start: Entry, withHistory: bool, steps: seq<Step>)
    requires start.origin.Start? && NamedSteps(steps)
    ensures NamedWorld(Reach(keys, start, withHistory, steps))
  {
    hide Do, NamedStep;
    if steps != [] {
      var front, last := steps[..|steps| - 1], steps[|steps| - 1];
      NamedRunsHaveNamedLogs(keys, start, withHistory, front);
      var before := Reach(keys, start, withHistory, front);
      assert NamedStep(last);
      if last.SealOperation? || last.SealRedemption? {
        SealsNamed(keys, before, last);
      } else if last.CommitPlan? {
        CommitsNamed(keys, before, last.h);
        CommitIsStep(keys, before, last);
      } else {
        OthersNamed(keys, before, last);
      }
    }
  }

  lemma CommitIsStep(keys: AuthorityKeys, w: World, s: Step)
    requires s.CommitPlan?
    ensures Do(keys, w, s) == StepCommit(keys, w, s.h)
  {
    hide StepCommit;
  }

  /** In every schedule of named operations, two committed revisions of one epoch have the same
      members, endpoint bindings and epoch secrets, each is wrapped to exactly its members, and the
      authority keeps its own place. */
  lemma EpochDeterminesMembershipInRuns(keys: AuthorityKeys, start: Entry, withHistory: bool, steps: seq<Step>, i: nat, j: nat)
    requires StartOk(keys, start) && AuthorityPresent(keys, start.config) && NamedSteps(steps)
    requires i < |Reach(keys, start, withHistory, steps).log| && j < |Reach(keys, start, withHistory, steps).log|
    ensures var a, b := Reach(keys, start, withHistory, steps).log[i], Reach(keys, start, withHistory, steps).log[j];
            && (a.config.epoch == b.config.epoch ==>
                  a.config.members == b.config.members && a.config.endpointBindings == b.config.endpointBindings && a.config.secrets == b.config.secrets)
            && WrappedToMembers(a.envelope, a.config) && AuthorityPresent(keys, a.config)
  {
    hide StartOk, Reach, Sequential, AuthorityPresent, WrappedToMembers, NamedLog, NamedSteps, Linked, ShowsLast, HistoryTrue, ValidAt, Carries;
    var log := Reach(keys, start, withHistory, steps).log;
    StartCarries(keys, start);
    NamedRunsHaveNamedLogs(keys, start, withHistory, steps);
    Linearizable(keys, start, withHistory, steps);
    if log[i].config.epoch == log[j].config.epoch {
      EpochDeterminesMembership(keys, log, i, j);
    }
    RevisionFacts(keys, log, i);
    AuthorityStays(keys, log, i);
  }

  /** In every schedule of named operations from a start with distinct serials, certificates that
      share a serial are one certificate, whichever revisions they appear in. */
  lemma SerialsNeverReissuedInRuns(keys: AuthorityKeys, start: Entry, withHistory: bool, steps: seq<Step>, i: nat, j: nat, m: MemberCert, n: MemberCert)
    requires StartOk(keys, start) && SerialsDistinct(start.config) && NamedSteps(steps)
    requires i < |Reach(keys, start, withHistory, steps).log| && j < |Reach(keys, start, withHistory, steps).log|
    requires IsMember(Reach(keys, start, withHistory, steps).log[i].config, m) && IsMember(Reach(keys, start, withHistory, steps).log[j].config, n)
    requires m.payload.serial == n.payload.serial
    ensures m == n
  {
    hide StartOk, Reach, Sequential, NamedLog, NamedSteps, Linked, ShowsLast, HistoryTrue, IsMember, SerialsDistinct, Carries;
    var log := Reach(keys, start, withHistory, steps).log;
    StartCarries(keys, start);
    NamedRunsHaveNamedLogs(keys, start, withHistory, steps);
    Linearizable(keys, start, withHistory, steps);
    if i <= j {
      SerialsNeverReissued(keys, log, i, j, m, n);
    } else {
      SerialsNeverReissued(keys, log, j, i, n, m);
    }
  }
}
