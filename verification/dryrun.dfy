/** The dry run: what its conditions say, and that its verdict stands. */
module DryRuns {
  import opened Prelude
  import opened ExamApi
  import opened Timetable
  import opened Webhook
  import opened Objects
  import opened Store
  import opened Oracle
  import opened Pass
  import opened System
  import opened Lifecycle
  import opened Wakeup

  /** The conditions of a status tell what the recorded dry run found. */
  ghost predicate VerdictTold(st: Status) {
    && (DryRunComplete in st.conditions <==> st.dryRun.Some?)
    && (DryRunFailed in st.conditions <==> st.dryRun.Some? && st.dryRun.value.failed > 0)
    && (NetworkPolicyEnforced in st.conditions ==> st.dryRun.Some?)
  }

  /** The second status keeps the dry run of the first and what was concluded from it. */
  ghost predicate VerdictKept(a: Status, b: Status) {
    a.dryRun.Some? ==>
      b.dryRun == a.dryRun && (NetworkPolicyEnforced in a.conditions <==> NetworkPolicyEnforced in b.conditions)
  }

  /** Nothing that has to do with the dry run differs. */
  ghost predicate SameVerdict(a: Status, b: Status) {
    a.dryRun == b.dryRun
    && forall v :: v in {DryRunComplete, DryRunFailed, NetworkPolicyEnforced} ==> (v in a.conditions <==> v in b.conditions)
  }

  lemma SameVerdictTold(a: Status, b: Status)
    requires SameVerdict(a, b) && VerdictTold(a)
    ensures VerdictTold(b) && VerdictKept(a, b)
  {
    assert DryRunComplete in {DryRunComplete, DryRunFailed, NetworkPolicyEnforced};
    assert DryRunFailed in {DryRunComplete, DryRunFailed, NetworkPolicyEnforced};
    assert NetworkPolicyEnforced in {DryRunComplete, DryRunFailed, NetworkPolicyEnforced};
  }

  /** Where none is recorded yet, a dry run is recorded with exactly the conditions it calls for. */
  lemma DryRunTells(j: Job, c: Ctx)
    requires VerdictTold(c.status) && c.status.dryRun.None?
    ensures var st := RunDryRun(j, c).status;
            && VerdictTold(st) && st.dryRun == Some(DryRun(j.now, j.env.check.passed, j.env.check.failed))
            && (DryRunFailed in st.conditions <==> j.env.check.failed > 0)
            && (NetworkPolicyEnforced in st.conditions <==> j.env.check.policyEnforced)
            && RunDryRun(j, c).mails == c.mails && RunDryRun(j, c).store == c.store
  {
  }

  lemma WaitTells(j: Job, c: Ctx)
    requires VerdictTold(c.status)
    ensures var o := WaitForUnlock(j, c).c.status;
            && VerdictTold(o) && VerdictKept(c.status, o)
            && (o.dryRun != c.status.dryRun <==> DryRunDue(j.spec, c.status, j.now))
            && (o.dryRun != c.status.dryRun ==> (NetworkPolicyEnforced in o.conditions <==> j.env.check.policyEnforced))
  {
    hide EnforceFrom, Entries, NextWake, RunDryRun;
    if DryRunDue(j.spec, c.status, j.now) {
      DryRunTells(j, c);
    }
  }

  lemma ReadyTells(j: Job, c: Ctx)
    requires VerdictTold(c.status)
    ensures var o := ReconcileReady(j, c).c.status; VerdictTold(o) && VerdictKept(c.status, o)
  {
    hide WaitForUnlock, MailDue, NextPending;
    WaitTells(j, c);
    var sent := c.(status := AddCondition(c.status, AllEmailsSent));
    assert SameVerdict(c.status, sent.status);
    SameVerdictTold(c.status, sent.status);
    WaitTells(j, sent);
  }

  lemma NotifySameVerdict(j: Job, c: Ctx, letter: Letter, content: Content, done: Condition)
    requires done in {InstructorNotifiedUnlock, InstructorNotifiedLock}
    ensures SameVerdict(c.status, Notify(j, c, letter, content, done).status)
  {
  }

  lemma UnlockSameVerdict(j: Job, c: Ctx)
    ensures SameVerdict(c.status, ReconcileUnlock(j, c).c.status)
  {
    hide EnforceFrom, Entries, FailedMails, Notify, MarkStudents, MarkSpares;
    var d := MarkInstances(EnforcePolicies(j, c, true), InstanceUnlocked);
    NotifySameVerdict(j, d, UnlockLetter,
      UnlockNotice(|j.spec.students|, j.spec.spares, FailedMails(d.status.students)), InstructorNotifiedUnlock);
  }

  lemma LockedSameVerdict(j: Job, c: Ctx)
    ensures SameVerdict(c.status, ReconcileLocked(j, c).c.status)
  {
    hide EnforceFrom, Entries, CountStudents, DeleteIngresses, Notify, MarkStudents, MarkSpares;
    var closed := EnforcePolicies(j, c, false);
    var d := MarkInstances(closed.(store := DeleteIngresses(j, closed.store).store), InstanceLocked);
    var lost := CountStudents(d.status.students, Failed);
    NotifySameVerdict(j, d, LockLetter,
      LockNotice(|j.spec.students|, Max(|d.status.students| - lost, 0), lost), InstructorNotifiedLock);
  }

  lemma ProvisioningSameVerdict(j: Job, c: Ctx)
    ensures SameVerdict(c.status, ReconcileProvisioning(j, c).c.status)
  {
    hide ProvisionStudents, ProvisionSpares, Cleanup, AllInstancesHealthy, ValidSlugs, SpareURLsOf, NamespaceObject;
    var made := Create(c.store, NamespaceKey(j.ns), NamespaceObject(j.x), j.env.fault(NamespaceCreate));
    var c0 := c.(store := made.store);
    StudentsKeepPhase(j, c0, 0, true);
    var students := ProvisionStudents(j, c0, 0, true);
    SparesKeepPhase(j, students.c, 0, students.healthy);
  }

  lemma PassTells(j: Job, c: Ctx)
    requires VerdictTold(c.status)
    ensures var o := Reconcile(j, c).c.status; VerdictTold(o) && VerdictKept(c.status, o)
  {
    hide ReconcileProvisioning, ReconcileReady, ReconcileUnlock, ReconcileLocked, ComputeSchedule, Summarize,
         VerdictTold, VerdictKept;
    var b := Begin(j, c);
    var o := Dispatch(j, b).c.status;
    BeginPlaces(j, c);
    assert SameVerdict(c.status, b.status);
    SameVerdictTold(c.status, b.status);
    match b.status.phase {
      case Pending => SameVerdictTold(b.status, o);
      case Provisioning => ProvisioningSameVerdict(j, b); SameVerdictTold(b.status, o);
      case Ready => ReadyTells(j, b);
      case Unlocked => UnlockSameVerdict(j, b); SameVerdictTold(b.status, o);
      case Locked => LockedSameVerdict(j, b); SameVerdictTold(b.status, o);
      case TearingDown => SameVerdictTold(b.status, o);
    }
    assert SameVerdict(o, Reconcile(j, c).c.status);
    SameVerdictTold(o, Reconcile(j, c).c.status);
    KeptTwice(c.status, b.status, o);
    KeptTwice(c.status, o, Reconcile(j, c).c.status);
  }

  lemma KeptTwice(a: Status, b: Status, c: Status)
    requires VerdictKept(a, b) && VerdictKept(b, c)
    ensures VerdictKept(a, c)
  {
  }

  /** In every run the recorded dry run and its conditions agree, and a recorded verdict is never revised. */
  lemma {:induction false} RunTells(m: Machine, s: State, steps: seq<Step>)
    requires VerdictTold(s.c.status)
    ensures var t := Run(m, s, steps).c.status; VerdictTold(t) && VerdictKept(s.c.status, t)
    decreases |steps|
  {
    hide Reconcile, VerdictTold, VerdictKept, ValidateUpdate;
    if steps == [] {
      SameVerdictTold(s.c.status, s.c.status);
    } else {
      var t := Apply(m, s, steps[0]);
      StepTells(m, s, steps[0]);
      RunTells(m, t, steps[1..]);
      KeptTwice(s.c.status, t.c.status, Run(m, t, steps[1..]).c.status);
    }
  }

  lemma StepTells(m: Machine, s: State, step: Step)
    requires VerdictTold(s.c.status)
    ensures var t := Apply(m, s, step).c.status; VerdictTold(t) && VerdictKept(s.c.status, t)
  {
    hide Reconcile, VerdictTold, VerdictKept, ValidateUpdate;
    SameVerdictTold(s.c.status, s.c.status);
    if step.Reconciled? {
      PassTells(JobOf(m, s, step.env), s.c);
    }
  }

  /** So whatever a reachable status says about the dry run is what the recorded dry run found. */
  lemma ReachableVerdict(m: Machine, s: State, steps: seq<Step>)
    requires Initial(m, s)
    ensures VerdictTold(Run(m, s, steps).c.status)
  {
    hide Run;
    RunTells(m, s, steps);
  }
}
