/** The timer protocol: a pass asks to be woken at the next instant at which anything is due. */
module Wakeup {
  import opened Prelude
  import opened ExamApi
  import opened Timetable
  import opened Pass
  import opened Lifecycle

  /** Would a pass at `t` move the exam, send a mail or run the dry run? */
  predicate Due(spec: Spec, st: Status, t: int) {
    || DesiredPhase(st.phase, Some(ComputeSchedule(spec)), spec, t) != st.phase
    || (st.phase == Ready && (MailDue(spec, st, t) || DryRunDue(spec, st, t)))
  }

  /** `wake` is the first instant from `now` on at which something is due. */
  ghost predicate FirstDue(spec: Spec, st: Status, now: int, wake: int) {
    && now <= wake
    && Due(spec, st, wake)
    && forall t :: now <= t < wake ==> !Due(spec, st, t)
  }

  /** Is the pass going to send a student mail and return at once? */
  predicate Draining(j: Job, c: Ctx) {
    Begin(j, c).status.phase == Ready && MailDue(j.spec, c.status, j.now)
    && NextPending(c.status.students, 0).Some?
  }

  lemma WaitAsksForNextWake(j: Job, c: Ctx)
    requires c.status.phase == Ready && j.now < j.spec.schedule.unlock
    requires !MailDue(j.spec, c.status, j.now)
    ensures var o := WaitForUnlock(j, c);
            FirstDue(j.spec, o.c.status, j.now, j.now + o.requeue) && j.now < j.now + o.requeue
            && o.c.status.phase == Ready
  {
    hide EnforceFrom, Entries;
  }

  lemma ReadyAsksForNextWake(j: Job, c: Ctx)
    requires c.status.phase == Ready && j.now < j.spec.schedule.unlock
    requires !(MailDue(j.spec, c.status, j.now) && NextPending(c.status.students, 0).Some?)
    ensures var o := ReconcileReady(j, c);
            FirstDue(j.spec, o.c.status, j.now, j.now + o.requeue) && o.requeue > 0 && o.c.status.phase == Ready
  {
    hide FirstDue, WaitForUnlock, NextPending;
    if MailDue(j.spec, c.status, j.now) {
      WaitAsksForNextWake(j, c.(status := AddCondition(c.status, AllEmailsSent)));
    } else {
      WaitAsksForNextWake(j, c);
    }
  }

  lemma ProvisioningPolls(j: Job, c: Ctx)
    requires c.status.phase == Phase.Provisioning
    ensures var o := ReconcileProvisioning(j, c);
            !o.err ==> o.c.status.phase == Ready || o.requeue == 10 * SECOND
  {
    hide ProvisionStudents, ProvisionSpares, Cleanup, AllInstancesHealthy, ValidSlugs;
  }

  /** A handler that reports no error asks to be woken exactly when something is next due; only the
      provisioning poll, the mail drain and the end of the exam are different. */
  lemma HandlerAsksForNextWake(j: Job, c: Ctx)
    requires c.status.times == Some(ComputeSchedule(j.spec)) && !Dispatch(j, c).err
    requires c.status.phase !in {Unset, Phase.Provisioning, TearingDown}
    requires c.status.phase == Pending ==> j.now < ComputeSchedule(j.spec).provision
    requires c.status.phase == Ready ==>
               j.now < j.spec.schedule.unlock
               && !(MailDue(j.spec, c.status, j.now) && NextPending(c.status.students, 0).Some?)
    ensures var o := Dispatch(j, c);
            FirstDue(j.spec, o.c.status, j.now, j.now + o.requeue) && o.c.status.phase == c.status.phase
            && (DesiredPhase(c.status.phase, c.status.times, j.spec, j.now) == c.status.phase ==> o.requeue > 0)
  {
    hide EnforceFrom, Entries, MarkStudents, MarkSpares, CountStudents, FailedMails, DeleteIngresses, ComputeSchedule,
         ReconcileReady, NextPending;
    if c.status.phase == Ready {
      ReadyAsksForNextWake(j, c);
    }
  }

  /** No lost wake-up and no oversleep. */
  lemma PassAsksForNextWake(j: Job, c: Ctx)
    requires !Reconcile(j, c).err
    ensures var o := Reconcile(j, c);
            && (o.requeue > 0 || o.c.status.phase != c.status.phase || o.c.status.phase == TearingDown)
            && (Begin(j, c).status.phase !in {Phase.Provisioning, TearingDown} && !Draining(j, c) ==>
                  FirstDue(j.spec, o.c.status, j.now, j.now + o.requeue))
            && (Draining(j, c) ==>
                  o.requeue == SendInterval(j.spec.email)
                  && j.now + o.requeue - j.spec.schedule.unlock < SendInterval(j.spec.email))
            && (o.c.status.phase == Phase.Provisioning ==> o.requeue == 10_000_000_000)
  {
    hide ReconcileProvisioning, ReconcileUnlock, ReconcileLocked, ReconcileTeardown, ComputeSchedule, Summarize,
         SendStudentMail, WaitForUnlock, NextPending, FirstDue;
    var b := Begin(j, c);
    var o := Dispatch(j, b);
    BeginPlaces(j, c);
    if b.status.phase == Phase.Provisioning {
      ProvisioningPhase(j, b);
      ProvisioningPolls(j, b);
    } else if b.status.phase == TearingDown {
      TeardownStays(j, b);
    } else if !Draining(j, c) {
      HandlerAsksForNextWake(j, b);
      SummaryNotDue(j.spec, o.c.status, Finish(j, o.c).status, j.now, j.now + o.requeue);
    } else {
      DrainingPass(j, c);
    }
  }

  lemma BeginPlaces(j: Job, c: Ctx)
    ensures var b := Begin(j, c).status;
            && b.times == Some(ComputeSchedule(j.spec)) && b.phase != Unset
            && b.phase == DesiredPhase(c.status.phase, b.times, j.spec, j.now)
            && (b.phase == Pending ==> j.now < ComputeSchedule(j.spec).provision)
            && (b.phase == Ready ==> j.now < j.spec.schedule.unlock)
            && (c.status.phase == b.phase ==> DesiredPhase(b.phase, b.times, j.spec, j.now) == b.phase)
            && b.conditions == c.status.conditions && b.students == c.status.students && b.spares == c.status.spares
  {
    hide ComputeSchedule;
  }

  lemma TeardownStays(j: Job, c: Ctx)
    requires c.status.phase == TearingDown
    ensures ReconcileTeardown(j, c).c.status.phase == TearingDown
  {
  }

  lemma DrainingPass(j: Job, c: Ctx)
    requires Draining(j, c)
    ensures var o := Reconcile(j, c);
            o.requeue == SendInterval(j.spec.email) && o.c.status.phase == Ready && j.now < j.spec.schedule.unlock
  {
    hide ComputeSchedule, Summarize;
  }

  lemma SummaryNotDue(spec: Spec, a: Status, b: Status, now: int, wake: int)
    requires a.phase == b.phase && a.conditions == b.conditions
    ensures FirstDue(spec, a, now, wake) <==> FirstDue(spec, b, now, wake)
  {
    hide ComputeSchedule;
    assert forall t :: Due(spec, a, t) <==> Due(spec, b, t);
  }
}
