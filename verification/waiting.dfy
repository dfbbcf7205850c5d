/** What a pass over a Ready exam does: one mail while mails are due, and otherwise the dry run when it is
    due and every policy put back. */
module Waiting {
  import opened Prelude
  import opened ExamApi
  import opened Timetable
  import opened Objects
  import opened Metrics
  import opened Pass
  import opened Footprint
  import opened Access
  import opened Wakeup
  import opened Reachability
  import opened Closing

  /** The dry run is asked for, was not made yet, and its time before unlock has come. */
  predicate TimeForDryRun(j: Job, st: Status) {
    match j.spec.schedule.dryRun
    case None => false
    case Some(before) => DryRunComplete !in st.conditions && j.spec.schedule.unlock <= j.now + before
  }

  lemma WaitingHandler(j: Job, c: Ctx)
    ensures var o := WaitForUnlock(j, c);
            && !o.err && o.c.mails == c.mails && o.c.status.students == c.status.students && o.c.status.spares == c.status.spares
            && o.c.store == EnforceFrom(j, c.store, Entries(c.status), 0, false)
            && (AllEmailsSent in o.c.status.conditions <==> AllEmailsSent in c.status.conditions)
            && (DryRunComplete in o.c.status.conditions <==> DryRunComplete in c.status.conditions || TimeForDryRun(j, c.status))
            && o.c.status.dryRun == (if TimeForDryRun(j, c.status)
                                     then Some(DryRun(j.now, j.env.check.passed, j.env.check.failed)) else c.status.dryRun)
            && (TimeForDryRun(j, c.status) ==> {OfExam(DryRunPassed, j.x), OfExam(DryRunFailures, j.x)} <= o.c.series)
  {
    hide EnforceFrom, Entries, NextWake;
    SameListsSameEntries(RunDryRun(j, c).status, c.status);
  }

  /** A Ready pass that sends no mail records that all mails are sent once they are due, makes the dry run
      exactly when it is time, and enforces the policies of a closed exam. */
  lemma WaitingPass(j: Job, c: Ctx)
    requires Begin(j, c).status.phase == Ready && !Draining(j, c)
    ensures var o := Reconcile(j, c);
            && !o.err && o.c.mails == c.mails && o.c.status.students == c.status.students && o.c.status.spares == c.status.spares
            && o.c.store == EnforceFrom(j, c.store, Entries(c.status), 0, false)
            && (AllEmailsSent in o.c.status.conditions <==>
                  AllEmailsSent in c.status.conditions || ComputeSchedule(j.spec).email <= j.now)
            && (DryRunComplete in o.c.status.conditions <==> DryRunComplete in c.status.conditions || TimeForDryRun(j, c.status))
            && o.c.status.dryRun == (if TimeForDryRun(j, c.status)
                                     then Some(DryRun(j.now, j.env.check.passed, j.env.check.failed)) else c.status.dryRun)
            && (TimeForDryRun(j, c.status) ==> {OfExam(DryRunPassed, j.x), OfExam(DryRunFailures, j.x)} <= o.c.series)
  {
    hide EnforceFrom, Entries, WaitForUnlock, NextPending, ComputeSchedule, Summarize, TimeForDryRun;
    var b := Begin(j, c);
    BeginPlaces(j, c);
    SameListsSameEntries(b.status, c.status);
    var sent := b.(status := AddCondition(b.status, AllEmailsSent));
    SameListsSameEntries(sent.status, c.status);
    WaitingHandler(j, b);
    WaitingHandler(j, sent);
    SameTime(j, b.status, c.status);
    SameTime(j, sent.status, c.status);
  }

  lemma SameTime(j: Job, a: Status, b: Status)
    requires DryRunComplete in a.conditions <==> DryRunComplete in b.conditions
    ensures TimeForDryRun(j, a) <==> TimeForDryRun(j, b)
  {
  }

  /** With no call refused it corrects drift: afterwards every recorded instance has its deny-all and its
      egress policy, none has an ingress-allow, and nothing else is gone. */
  lemma WaitingPassCorrects(j: Job, c: Ctx, e: nat)
    requires Begin(j, c).status.phase == Ready && !Draining(j, c) && NothingRefused(j.env) && e < |Entries(c.status)|
    ensures var t, slug := Reconcile(j, c).c.store, Entries(c.status)[e].slug;
            && PolicyKey(j.ns, DenyAllPart, slug) in t && PolicyKey(j.ns, EgressAllowPart, slug) in t
            && PolicyKey(j.ns, IngressAllowPart, slug) !in t
            && forall k :: k in c.store && !IsAccess(k) ==> k in t
  {
    hide EnforceFrom, Entries, Reconcile, Begin, IsAccess;
    WaitingPass(j, c);
    EnforceEstablishes(j, c.store, Entries(c.status), 0, false);
    ClosingRemovesAllows(j, c.store, Entries(c.status), 0, e);
  }

  /** A pass that sends a mail comes back after the spec's interval, or after a second if it gives none. */
  lemma DrainingPassWaits(j: Job, c: Ctx)
    requires Draining(j, c)
    ensures Reconcile(j, c).requeue == if j.spec.email.sendInterval > 0 then j.spec.email.sendInterval else 1_000_000_000
  {
    hide ComputeSchedule, Summarize, NextPending, SendStudentMail;
    BeginPlaces(j, c);
  }
}
