/** The instructor's two notices: what they say, and that each is delivered once but for lost writes. */
module Notices {
  import opened Prelude
  import opened ExamApi
  import opened Timetable
  import opened Webhook
  import opened Objects
  import opened Store
  import opened Oracle
  import opened Pass
  import opened System
  import opened Lifecycle
  import opened Alignment
  import opened Wakeup
  import opened Counting

  // What the notices say.

  /** The ids listed as undelivered are exactly those of the students whose mail failed, one for each. */
  lemma {:induction false} FailedMailsExact(students: seq<StudentStatus>)
    ensures |FailedMails(students)| == CountEmails(students, EmailFailed)
    ensures forall id :: id in FailedMails(students) <==>
              exists i :: 0 <= i < |students| && students[i].email == EmailFailed && students[i].id == id
  {
    if students != [] {
      var n := |students| - 1;
      var front := students[..n];
      FailedMailsExact(front);
      forall id ensures id in FailedMails(students) <==>
                  exists i :: 0 <= i < |students| && students[i].email == EmailFailed && students[i].id == id
      {
        if i :| 0 <= i < |students| && students[i].email == EmailFailed && students[i].id == id {
          assert i < n ==> front[i] == students[i];
        }
        if id in FailedMails(front) {
          var i :| 0 <= i < n && front[i].email == EmailFailed && front[i].id == id;
          assert students[i].email == EmailFailed && students[i].id == id;
        }
      }
    }
  }

  /** An Unlocked pass sends nothing or one notice, and the notice names the students to be told by hand. */
  lemma UnlockNoticeTells(j: Job, c: Ctx)
    ensures var o := ReconcileUnlock(j, c).c;
            if InstructorNotifiedUnlock in c.status.conditions then o.mails == c.mails
            else
              exists failed ::
                && o.mails == c.mails + [Mail(j.spec.email.instructorEmail,
                                              UnlockNotice(|j.spec.students|, j.spec.spares, failed),
                                              !j.env.undelivered(UnlockLetter))]
                && |failed| == CountEmails(c.status.students, EmailFailed)
                && (forall id :: id in failed <==>
                      (exists i :: 0 <= i < |c.status.students|
                         && c.status.students[i].email == EmailFailed && c.status.students[i].id == id))
  {
    hide EnforceFrom, Entries, FailedMails, CountEmails, MarkSpares;
    var marked := MarkStudents(c.status.students, InstanceUnlocked);
    FailedMailsExact(marked);
    SameMailCounts(c.status.students, InstanceUnlocked);
    assert forall i :: 0 <= i < |marked| ==>
      marked[i].email == c.status.students[i].email && marked[i].id == c.status.students[i].id;
  }

  lemma {:induction false} SameMailCounts(students: seq<StudentStatus>, phase: InstancePhase)
    ensures CountEmails(MarkStudents(students, phase), EmailFailed) == CountEmails(students, EmailFailed)
    decreases |students|
  {
    if students != [] {
      var n := |students| - 1;
      SameMailCounts(students[..n], phase);
      assert MarkStudents(students, phase)[..n] == MarkStudents(students[..n], phase);
    }
  }

  lemma {:induction false} SameFailureCounts(students: seq<StudentStatus>, phase: InstancePhase)
    requires phase != Failed
    ensures CountStudents(MarkStudents(students, phase), Failed) == CountStudents(students, Failed)
    decreases |students|
  {
    if students != [] {
      var n := |students| - 1;
      SameFailureCounts(students[..n], phase);
      assert MarkStudents(students, phase)[..n] == MarkStudents(students[..n], phase);
    }
  }

  /** The notice of an errorless Locked pass counts the students that failed, and the others. */
  lemma LockNoticeTells(j: Job, c: Ctx)
    requires !ReconcileLocked(j, c).err
    ensures var o := ReconcileLocked(j, c).c;
            if InstructorNotifiedLock in c.status.conditions then o.mails == c.mails
            else
              exists healthy: nat, lost: nat ::
                && o.mails == c.mails + [Mail(j.spec.email.instructorEmail, LockNotice(|j.spec.students|, healthy, lost),
                                              !j.env.undelivered(LockLetter))]
                && lost == CountStudents(c.status.students, Failed) && healthy + lost == |c.status.students|
  {
    hide EnforceFrom, Entries, CountStudents, DeleteIngresses, MarkSpares;
    SameFailureCounts(c.status.students, InstanceLocked);
    StudentsCounted(c.status.students);
  }

  /** On entering Ready the instructor is sent the links of all spares, in order, if there are any. */
  lemma SpareLinksTell(j: Job, c: Ctx)
    requires GoodLists(j.platform.domain, j.spec, c.status) && |c.status.spares| == j.spec.spares
    requires forall i :: 0 <= i < |c.status.spares| ==> c.status.spares[i].slug != ""
    ensures var o := EnterReady(j, c);
            if j.spec.spares == 0 then o.mails == c.mails
            else
              exists urls: seq<string> ::
                && o.mails == c.mails + [Mail(j.spec.email.instructorEmail, SpareURLs(urls), !j.env.undelivered(SparesLetter))]
                && |urls| == j.spec.spares
                && (forall i :: 0 <= i < |urls| ==>
                      urls[i] == "https://" + c.status.spares[i].slug + "." + j.platform.domain)
  {
    var urls := SpareURLsOf(c.status.spares);
    forall i | 0 <= i < |urls| ensures urls[i] == "https://" + c.status.spares[i].slug + "." + j.platform.domain {
      assert GoodSpare(j.platform.domain, c.status.spares[i]);
    }
  }

  // How often they are delivered.

  datatype Notice = AtUnlock | AtLock

  function Recording(n: Notice): Condition {
    if n == AtUnlock then InstructorNotifiedUnlock else InstructorNotifiedLock
  }

  function DeliveryOf(mail: Mail, n: Notice): nat {
    if mail.delivered && (if n == AtUnlock then mail.content.UnlockNotice? else mail.content.LockNotice?) then 1 else 0
  }

  function Deliveries(mails: seq<Mail>, n: Notice): nat {
    if mails == [] then 0 else Deliveries(mails[..|mails| - 1], n) + DeliveryOf(mails[|mails| - 1], n)
  }

  lemma DeliveriesAppended(mails: seq<Mail>, mail: Mail, n: Notice)
    ensures Deliveries(mails + [mail], n) == Deliveries(mails, n) + DeliveryOf(mail, n)
  {
    assert (mails + [mail])[..|mails|] == mails;
  }

  /** A delivery is recorded by the very pass that makes it. */
  ghost predicate Accounted(c: Ctx, d: Ctx, n: Notice) {
    && Deliveries(d.mails, n) + One(Recording(n) in c.status.conditions)
         == Deliveries(c.mails, n) + One(Recording(n) in d.status.conditions)
    && (Recording(n) in c.status.conditions ==> Recording(n) in d.status.conditions)
  }

  lemma NotifyAccounted(j: Job, c: Ctx, letter: Letter, content: Content, done: Condition, n: Notice)
    requires (content.UnlockNotice? && done == InstructorNotifiedUnlock) || (content.LockNotice? && done == InstructorNotifiedLock)
    ensures Accounted(c, Notify(j, c, letter, content, done), n)
  {
    hide Deliveries;
    DeliveriesAppended(c.mails, Mail(j.spec.email.instructorEmail, content, !j.env.undelivered(letter)), n);
  }

  lemma UnlockAccounted(j: Job, c: Ctx, n: Notice)
    ensures Accounted(c, ReconcileUnlock(j, c).c, n)
  {
    hide EnforceFrom, Entries, FailedMails, Notify, Deliveries, MarkStudents, MarkSpares;
    var d := MarkInstances(EnforcePolicies(j, c, true), InstanceUnlocked);
    NotifyAccounted(j, d, UnlockLetter,
      UnlockNotice(|j.spec.students|, j.spec.spares, FailedMails(d.status.students)), InstructorNotifiedUnlock, n);
  }

  lemma LockedAccounted(j: Job, c: Ctx, n: Notice)
    ensures Accounted(c, ReconcileLocked(j, c).c, n)
  {
    hide EnforceFrom, Entries, CountStudents, DeleteIngresses, Notify, Deliveries, MarkStudents, MarkSpares;
    var closed := EnforcePolicies(j, c, false);
    var d := MarkInstances(closed.(store := DeleteIngresses(j, closed.store).store), InstanceLocked);
    var lost := CountStudents(d.status.students, Failed);
    NotifyAccounted(j, d, LockLetter,
      LockNotice(|j.spec.students|, Max(|d.status.students| - lost, 0), lost), InstructorNotifiedLock, n);
  }

  lemma ReadyAccounted(j: Job, c: Ctx, n: Notice)
    ensures Accounted(c, ReconcileReady(j, c).c, n)
  {
    hide EnforceFrom, Entries, NextWake, Deliveries, ComputeSchedule;
    var next := NextPending(c.status.students, 0);
    if next.Some? {
      var s := c.status.students[next.value];
      DeliveriesAppended(c.mails, Mail(StudentAddress(j.spec, next.value), StudentURL(next.value, s.url),
                                       !j.env.undelivered(StudentLetter(next.value))), n);
    }
  }

  lemma ProvisioningAccounted(j: Job, c: Ctx, n: Notice)
    ensures Accounted(c, ReconcileProvisioning(j, c).c, n)
  {
    hide ProvisionStudents, ProvisionSpares, Cleanup, AllInstancesHealthy, ValidSlugs, Deliveries, SpareURLsOf, NamespaceObject;
    var made := Create(c.store, NamespaceKey(j.ns), NamespaceObject(j.x), j.env.fault(NamespaceCreate));
    var c0 := c.(store := made.store);
    StudentsKeepPhase(j, c0, 0, true);
    var students := ProvisionStudents(j, c0, 0, true);
    SparesKeepPhase(j, students.c, 0, students.healthy);
    var d := ProvisionSpares(j, students.c, 0, students.healthy).c;
    DeliveriesAppended(d.mails, Mail(j.spec.email.instructorEmail, SpareURLs(SpareURLsOf(d.status.spares)),
                                     !j.env.undelivered(SparesLetter)), n);
  }

  lemma PassAccounted(j: Job, c: Ctx, n: Notice)
    ensures Accounted(c, Reconcile(j, c).c, n)
  {
    hide ReconcileProvisioning, ReconcileReady, ReconcileUnlock, ReconcileLocked, ComputeSchedule, Summarize, Deliveries;
    var b := Begin(j, c);
    BeginPlaces(j, c);
    match b.status.phase {
      case Pending =>
      case Provisioning => ProvisioningAccounted(j, b, n);
      case Ready => ReadyAccounted(j, b, n);
      case Unlocked => UnlockAccounted(j, b, n);
      case Locked => LockedAccounted(j, b, n);
      case TearingDown =>
    }
  }

  /** Did this step deliver the notice and then lose the record of it? */
  predicate LosesNotice(m: Machine, s: State, step: Step, n: Notice) {
    step.Reconciled? && !step.saved && Deliveries(Apply(m, s, step).c.mails, n) > Deliveries(s.c.mails, n)
  }

  function LostNotices(m: Machine, s: State, steps: seq<Step>, n: Notice): nat
    decreases |steps|
  {
    if steps == [] then 0
    else One(LosesNotice(m, s, steps[0], n)) + LostNotices(m, Apply(m, s, steps[0]), steps[1..], n)
  }

  lemma StepDelivers(m: Machine, s: State, step: Step, n: Notice)
    ensures var t := Apply(m, s, step);
            Deliveries(t.c.mails, n) + One(Recording(n) in s.c.status.conditions)
              == Deliveries(s.c.mails, n) + One(LosesNotice(m, s, step, n)) + One(Recording(n) in t.c.status.conditions)
  {
    hide Reconcile, Deliveries, ValidateUpdate;
    if step.Reconciled? {
      PassAccounted(JobOf(m, s, step.env), s.c, n);
    }
  }

  lemma {:induction false} RunDelivers(m: Machine, s: State, steps: seq<Step>, n: Notice)
    ensures var t := Run(m, s, steps);
            Deliveries(t.c.mails, n) + One(Recording(n) in s.c.status.conditions)
              == Deliveries(s.c.mails, n) + LostNotices(m, s, steps, n) + One(Recording(n) in t.c.status.conditions)
    decreases |steps|
  {
    hide Apply, Deliveries, LosesNotice;
    if steps != [] {
      StepDelivers(m, s, steps[0], n);
      RunDelivers(m, Apply(m, s, steps[0]), steps[1..], n);
    }
  }

  /** In every run either notice has been delivered exactly as often as its delivery was recorded or the
      record of it was lost, and so at most once but for lost writes. */
  lemma NoticesDelivered(m: Machine, s: State, steps: seq<Step>, n: Notice)
    requires Initial(m, s)
    ensures var t := Run(m, s, steps);
            Deliveries(t.c.mails, n) == LostNotices(m, s, steps, n) + One(Recording(n) in t.c.status.conditions)
  {
    hide Apply, Run, LostNotices;
    RunDelivers(m, s, steps, n);
  }
}
