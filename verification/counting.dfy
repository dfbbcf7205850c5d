/** The counts of the status summary add up, and from Ready on they add up to the spec. */
module Counting {
  import opened Prelude
  import opened ExamApi
  import opened Timetable
  import opened Webhook
  import opened Oracle
  import opened Pass
  import opened System
  import opened Lifecycle
  import opened Alignment
  import opened Identity
  import opened Wakeup

  lemma {:induction false} StudentsCounted(students: seq<StudentStatus>)
    ensures CountStudents(students, Failed) <= |students|
    ensures (forall i :: 0 <= i < |students| ==> students[i].email != NoEmail) ==>
              CountEmails(students, EmailSent) + CountEmails(students, EmailFailed) + CountEmails(students, EmailPending)
              == |students|
  {
    if students != [] {
      StudentsCounted(students[..|students| - 1]);
    }
  }

  lemma {:induction false} SparesCounted(spares: seq<SpareStatus>)
    ensures CountSpares(spares, Failed) <= |spares|
  {
    if spares != [] {
      SparesCounted(spares[..|spares| - 1]);
    }
  }

  /** In every summary written for a reachable status, healthy and failed instances make up all the
      recorded ones, and sent, failed and pending mails make up all students. */
  lemma SummaryConserves(domain: string, spec: Spec, st: Status)
    requires Aligned(domain, spec, st)
    ensures var m := Summarize(spec, st);
            && m.healthy + m.failed == |st.students| + |st.spares|
            && m.emailsSent + m.emailsFailed + CountEmails(st.students, EmailPending) == |st.students|
            && (Rank(st.phase) >= 2 ==>
                  m.emailsSent + m.emailsFailed + CountEmails(st.students, EmailPending) == m.totalStudents)
            && (Rank(st.phase) >= 2 && |st.spares| == spec.spares ==>
                  m.healthy + m.failed == m.totalStudents + m.totalSpares)
  {
    StudentsCounted(st.students);
    SparesCounted(st.spares);
    forall i | 0 <= i < |st.students| ensures st.students[i].email != NoEmail {
      assert GoodStudent(domain, spec, i, st.students[i]);
    }
  }

  /** The summary a pass records is that of the status it records. */
  lemma PassSummarizes(j: Job, c: Ctx)
    ensures var o := Reconcile(j, c).c.status;
            o.phase != TearingDown ==> o.summary == Some(Summarize(j.spec, o))
  {
    hide Dispatch, CountStudents, CountEmails, CountSpares;
  }

  /** The same instances are failed. */
  ghost predicate SameFailures(a: Status, b: Status) {
    && |a.students| == |b.students| && |a.spares| == |b.spares|
    && (forall i :: 0 <= i < |a.students| ==> (a.students[i].phase == Failed <==> b.students[i].phase == Failed))
    && (forall i :: 0 <= i < |a.spares| ==> (a.spares[i].phase == Failed <==> b.spares[i].phase == Failed))
  }

  lemma MarkSameFailures(c: Ctx, phase: InstancePhase)
    requires phase != Failed
    ensures SameFailures(c.status, MarkInstances(c, phase).status)
  {
  }

  lemma SameFailuresTransitive(a: Status, b: Status, c: Status)
    requires SameFailures(a, b) && SameFailures(b, c)
    ensures SameFailures(a, c)
  {
  }

  lemma SameListsSameFailures(a: Status, b: Status)
    requires a.students == b.students && a.spares == b.spares
    ensures SameFailures(a, b)
  {
  }

  lemma UnlockSameFailures(j: Job, c: Ctx)
    ensures SameFailures(c.status, ReconcileUnlock(j, c).c.status)
  {
    hide EnforceFrom, FailedMails, Notify, MarkInstances, SameFailures;
    var d := MarkInstances(EnforcePolicies(j, c, true), InstanceUnlocked);
    MarkSameFailures(EnforcePolicies(j, c, true), InstanceUnlocked);
    NotifyKeepsLists(j, d, UnlockLetter,
      UnlockNotice(|j.spec.students|, j.spec.spares, FailedMails(d.status.students)), InstructorNotifiedUnlock);
    SameListsSameFailures(d.status, ReconcileUnlock(j, c).c.status);
    SameFailuresTransitive(c.status, d.status, ReconcileUnlock(j, c).c.status);
  }

  lemma LockedSameFailures(j: Job, c: Ctx)
    ensures SameFailures(c.status, ReconcileLocked(j, c).c.status)
  {
    hide EnforceFrom, CountStudents, DeleteIngresses, Notify, MarkInstances, SameFailures;
    var closed := EnforcePolicies(j, c, false);
    var removed := closed.(store := DeleteIngresses(j, closed.store).store);
    var d := MarkInstances(removed, InstanceLocked);
    MarkSameFailures(removed, InstanceLocked);
    var lost := CountStudents(d.status.students, Failed);
    NotifyKeepsLists(j, d, LockLetter,
      LockNotice(|j.spec.students|, Max(|d.status.students| - lost, 0), lost), InstructorNotifiedLock);
    SameListsSameFailures(c.status, removed.status);
    if !ReconcileLocked(j, c).err {
      SameListsSameFailures(d.status, ReconcileLocked(j, c).c.status);
      SameFailuresTransitive(c.status, d.status, ReconcileLocked(j, c).c.status);
    }
  }

  lemma ReadySameFailures(j: Job, c: Ctx)
    ensures SameFailures(c.status, ReconcileReady(j, c).c.status)
  {
    hide EnforceFrom, Entries, NextWake, MailDue, DryRunDue;
  }

  /** From Ready on a pass neither adds an entry nor changes which instances count as failed. */
  lemma PassSameFailures(j: Job, c: Ctx)
    requires Rank(c.status.phase) >= 2
    ensures SameFailures(c.status, Reconcile(j, c).c.status)
  {
    hide ReconcileProvisioning, ReconcileReady, ReconcileUnlock, ReconcileLocked, ComputeSchedule, Summarize, SameFailures;
    var b := Begin(j, c);
    BeginPlaces(j, c);
    match b.status.phase {
      case Ready => ReadySameFailures(j, b);
      case Unlocked => UnlockSameFailures(j, b);
      case Locked => LockedSameFailures(j, b);
      case TearingDown => SameListsSameFailures(b.status, ReconcileTeardown(j, b).c.status);
    }
    SameListsSameFailures(c.status, b.status);
    SameFailuresTransitive(c.status, b.status, Dispatch(j, b).c.status);
    SameListsSameFailures(Dispatch(j, b).c.status, Reconcile(j, c).c.status);
    SameFailuresTransitive(c.status, Dispatch(j, b).c.status, Reconcile(j, c).c.status);
  }

  /** From Ready on, no run adds an entry or changes which instances count as failed. */
  lemma {:induction false} RunSameFailures(m: Machine, s: State, steps: seq<Step>)
    requires Rank(s.c.status.phase) >= 2
    ensures SameFailures(s.c.status, Run(m, s, steps).c.status)
    decreases |steps|
  {
    hide Apply;
    if steps != [] {
      StepSameFailures(m, s, steps[0]);
      StepPhase(m, s, steps[0]);
      RunSameFailures(m, Apply(m, s, steps[0]), steps[1..]);
    }
  }

  lemma StepSameFailures(m: Machine, s: State, step: Step)
    requires Rank(s.c.status.phase) >= 2
    ensures SameFailures(s.c.status, Apply(m, s, step).c.status)
  {
    hide Reconcile, ValidateUpdate;
    if step.Reconciled? {
      PassSameFailures(JobOf(m, s, step.env), s.c);
    }
  }

  /** Once provisioning is recorded no accepted edit changes the number of students or spares. */
  lemma {:induction false} RunKeepsNumbers(m: Machine, s: State, steps: seq<Step>)
    requires Rank(s.c.status.phase) >= 1
    ensures var t := Run(m, s, steps).spec;
            |t.students| == |s.spec.students| && t.spares == s.spec.spares
    decreases |steps|
  {
    hide Reconcile, ValidateUpdate;
    if steps != [] {
      StepPhase(m, s, steps[0]);
      RunKeepsNumbers(m, Apply(m, s, steps[0]), steps[1..]);
    }
  }

  /** For an exam that passed the gate with every spare recorded, the summary of any status of any later
      run adds up to the students and spares of the spec, and as many instances are failed as there were. */
  lemma CountsStayFull(m: Machine, s: State, steps: seq<Step>)
    requires LinedUp(m, s) && Legal(m, s, steps)
    requires Rank(s.c.status.phase) >= 2 && |s.c.status.spares| == s.spec.spares
    ensures var t := Run(m, s, steps);
            var sum := Summarize(t.spec, t.c.status);
            && sum.healthy + sum.failed == |s.spec.students| + s.spec.spares
            && sum.emailsSent + sum.emailsFailed + CountEmails(t.c.status.students, EmailPending) == |s.spec.students|
            && sum.failed == Summarize(s.spec, s.c.status).failed
  {
    hide Run, Legal, GoodStudent, GoodSpare, CountStudents, CountSpares, CountEmails, Summarize;
    var t := Run(m, s, steps);
    RunLinedUp(m, s, steps);
    RunNonDecreasing(m, s, steps);
    RunKeepsNumbers(m, s, steps);
    RunSameFailures(m, s, steps);
    SummaryConserves(m.platform.domain, t.spec, t.c.status);
    SummaryCountsFailures(s.spec, s.c.status, t.spec, t.c.status);
  }

  lemma SummaryCountsFailures(p: Spec, a: Status, q: Spec, b: Status)
    requires SameFailures(a, b)
    ensures Summarize(p, a).failed == Summarize(q, b).failed
    ensures Summarize(p, a).totalStudents == |p.students| && Summarize(p, a).totalSpares == p.spares
    ensures Summarize(q, b).totalStudents == |q.students| && Summarize(q, b).totalSpares == q.spares
  {
    hide CountEmails;
    SameStudentFailures(a.students, b.students);
    SameSpareFailures(a.spares, b.spares);
  }

  lemma {:induction false} SameStudentFailures(a: seq<StudentStatus>, b: seq<StudentStatus>)
    requires |a| == |b| && forall i :: 0 <= i < |a| ==> (a[i].phase == Failed <==> b[i].phase == Failed)
    ensures CountStudents(a, Failed) == CountStudents(b, Failed)
    decreases |a|
  {
    if a != [] {
      SameStudentFailures(a[..|a| - 1], b[..|b| - 1]);
    }
  }

  lemma {:induction false} SameSpareFailures(a: seq<SpareStatus>, b: seq<SpareStatus>)
    requires |a| == |b| && forall i :: 0 <= i < |a| ==> (a[i].phase == Failed <==> b[i].phase == Failed)
    ensures CountSpares(a, Failed) == CountSpares(b, Failed)
    decreases |a|
  {
    if a != [] {
      SameSpareFailures(a[..|a| - 1], b[..|b| - 1]);
    }
  }
}
