/** Student mail: to the right student, with the right link, at most once but for lost writes. */
module Mailing {
  import opened Prelude
  import opened ExamApi
  import opened Timetable
  import opened Webhook
  import opened Objects
  import opened Store
  import opened Metrics
  import opened Oracle
  import opened Pass
  import opened System
  import opened Lifecycle
  import opened Alignment
  import opened Identity
  import opened Wakeup

  /** How many mails of the log were written to the student at position `i`. */
  function MailCount(mails: seq<Mail>, i: nat): nat {
    if mails == [] then 0
    else MailCount(mails[..|mails| - 1], i) + Addressed(mails[|mails| - 1], i)
  }

  function Addressed(mail: Mail, i: nat): nat {
    if mail.content.StudentURL? && mail.content.index == i then 1 else 0
  }

  lemma CountAppended(mails: seq<Mail>, mail: Mail, i: nat)
    ensures MailCount(mails + [mail], i) == MailCount(mails, i) + Addressed(mail, i)
  {
    assert (mails + [mail])[..|mails|] == mails;
  }

  ghost predicate SameEmails(a: seq<StudentStatus>, b: seq<StudentStatus>) {
    |a| == |b| && forall i :: 0 <= i < |a| ==> a[i].email == b[i].email
  }

  ghost predicate NonePending(students: seq<StudentStatus>) {
    forall i :: 0 <= i < |students| ==> students[i].email != EmailPending
  }

  /** A pass that is not draining: no student mail, no email status changed, the latch honest. */
  ghost predicate Quiet(c: Ctx, d: Ctx) {
    && SameEmails(c.status.students, d.status.students)
    && (forall i :: MailCount(d.mails, i) == MailCount(c.mails, i))
    && (AllEmailsSent in c.status.conditions ==> AllEmailsSent in d.status.conditions)
    && (AllEmailsSent in d.status.conditions && AllEmailsSent !in c.status.conditions ==> NonePending(d.status.students))
  }

  lemma NotifyQuiet(j: Job, c: Ctx, letter: Letter, content: Content, done: Condition)
    requires !content.StudentURL? && done != AllEmailsSent
    ensures Quiet(c, Notify(j, c, letter, content, done))
  {
    if done !in c.status.conditions {
      forall i ensures MailCount(Notify(j, c, letter, content, done).mails, i) == MailCount(c.mails, i) {
        CountAppended(c.mails, Mail(j.spec.email.instructorEmail, content, !j.env.undelivered(letter)), i);
      }
    }
  }

  lemma QuietTransitive(a: Ctx, b: Ctx, c: Ctx)
    requires Quiet(a, b) && Quiet(b, c)
    ensures Quiet(a, c)
  {
    hide MailCount;
  }

  lemma UnlockQuiet(j: Job, c: Ctx)
    ensures Quiet(c, ReconcileUnlock(j, c).c)
  {
    hide EnforceFrom, Entries, FailedMails, Notify, MailCount;
    var d := MarkInstances(EnforcePolicies(j, c, true), InstanceUnlocked);
    var content := UnlockNotice(|j.spec.students|, j.spec.spares, FailedMails(d.status.students));
    NotifyQuiet(j, d, UnlockLetter, content, InstructorNotifiedUnlock);
    QuietTransitive(c, d, Notify(j, d, UnlockLetter, content, InstructorNotifiedUnlock));
  }

  lemma LockedQuiet(j: Job, c: Ctx)
    ensures Quiet(c, ReconcileLocked(j, c).c)
  {
    hide EnforceFrom, Entries, DeleteIngresses, CountStudents, Notify, MailCount;
    var closed := EnforcePolicies(j, c, false);
    var removed := DeleteIngresses(j, closed.store);
    var d := MarkInstances(closed.(store := removed.store), InstanceLocked);
    var lost := CountStudents(d.status.students, Failed);
    var content := LockNotice(|j.spec.students|, Max(|d.status.students| - lost, 0), lost);
    NotifyQuiet(j, d, LockLetter, content, InstructorNotifiedLock);
    QuietTransitive(c, d, Notify(j, d, LockLetter, content, InstructorNotifiedLock));
  }

  lemma ReadyQuiet(j: Job, c: Ctx)
    requires !(MailDue(j.spec, c.status, j.now) && NextPending(c.status.students, 0).Some?)
    ensures Quiet(c, ReconcileReady(j, c).c)
  {
    hide EnforceFrom, Entries, NextWake, MailCount, ComputeSchedule;
  }

  /** A draining pass mails the first pending student, at her address, her own recorded link. */
  lemma DrainMails(j: Job, c: Ctx)
    requires Draining(j, c) && c.status.phase == Ready
    ensures var i := NextPending(c.status.students, 0).value;
            var o := Reconcile(j, c).c;
            && o.mails == c.mails + [Mail(StudentAddress(j.spec, i), StudentURL(i, c.status.students[i].url),
                                          !j.env.undelivered(StudentLetter(i)))]
            && |o.status.students| == |c.status.students|
            && o.status.students[i].email == (if j.env.undelivered(StudentLetter(i)) then EmailFailed else EmailSent)
            && o.status.students[i].sentAt == (if j.env.undelivered(StudentLetter(i)) then c.status.students[i].sentAt else Some(j.now))
            && OfExam(if j.env.undelivered(StudentLetter(i)) then EmailsFailedTotal else EmailsSentTotal, j.x) in o.series
            && (forall k :: 0 <= k < |c.status.students| && k != i ==> o.status.students[k] == c.status.students[k])
            && o.status.conditions == c.status.conditions && o.store == c.store
  {
    hide ComputeSchedule, Summarize;
  }

  lemma QuietPass(j: Job, c: Ctx)
    requires Rank(c.status.phase) >= 2 && !(c.status.phase == Ready && Draining(j, c))
    ensures Quiet(c, Reconcile(j, c).c)
  {
    hide ReconcileReady, ReconcileUnlock, ReconcileLocked, ComputeSchedule, Summarize, MailCount, NextPending;
    var b := Begin(j, c);
    BeginPlaces(j, c);
    if b.status.phase == Ready {
      ReadyQuiet(j, b);
    } else if b.status.phase == Phase.Unlocked {
      UnlockQuiet(j, b);
    } else if b.status.phase == Phase.Locked {
      LockedQuiet(j, b);
    }
    QuietTransitive(c, b, Dispatch(j, b).c);
    QuietTransitive(c, Dispatch(j, b).c, Reconcile(j, c).c);
  }

  /** Before Ready is recorded no student is mailed and the latch stays off. */
  lemma EarlyPass(j: Job, c: Ctx)
    requires Rank(c.status.phase) < 2
    ensures var o := Reconcile(j, c).c;
            && (forall i :: MailCount(o.mails, i) == MailCount(c.mails, i))
            && (AllEmailsSent in o.status.conditions <==> AllEmailsSent in c.status.conditions)
  {
    hide ReconcileProvisioning, ComputeSchedule, Summarize, MailCount;
    var b := Begin(j, c);
    BeginPlaces(j, c);
    if b.status.phase == Phase.Provisioning {
      EarlyProvisioning(j, b);
    }
  }

  lemma EarlyProvisioning(j: Job, c: Ctx)
    ensures var o := ReconcileProvisioning(j, c).c;
            && (forall i :: MailCount(o.mails, i) == MailCount(c.mails, i))
            && (AllEmailsSent in o.status.conditions <==> AllEmailsSent in c.status.conditions)
  {
    hide ProvisionStudents, ProvisionSpares, Cleanup, AllInstancesHealthy, ValidSlugs, MailCount, SpareURLsOf, NamespaceObject;
    var made := Create(c.store, NamespaceKey(j.ns), NamespaceObject(j.x), j.env.fault(NamespaceCreate));
    var c0 := c.(store := made.store);
    StudentsKeepPhase(j, c0, 0, true);
    var students := ProvisionStudents(j, c0, 0, true);
    SparesKeepPhase(j, students.c, 0, students.healthy);
    var d := ProvisionSpares(j, students.c, 0, students.healthy).c;
    forall i ensures
      MailCount(d.mails + [Mail(j.spec.email.instructorEmail, SpareURLs(SpareURLsOf(d.status.spares)),
                                !j.env.undelivered(SparesLetter))], i) == MailCount(d.mails, i)
    {
      CountAppended(d.mails, Mail(j.spec.email.instructorEmail, SpareURLs(SpareURLsOf(d.status.spares)),
                                  !j.env.undelivered(SparesLetter)), i);
    }
  }

  // Runs.

  /** The mail to student `i` is behind the exam: sent, or given up. */
  predicate Done(s: State, i: nat) {
    Rank(s.c.status.phase) >= 2 && i < |s.c.status.students| && s.c.status.students[i].email != EmailPending
  }

  /** The latch tells the truth: Ready was reached and no student is waiting for a mail. */
  ghost predicate LatchHonest(s: State) {
    AllEmailsSent in s.c.status.conditions ==> Rank(s.c.status.phase) >= 2 && NonePending(s.c.status.students)
  }

  /** Did this step mail student `i` and then lose the record of it? */
  predicate LosesMail(m: Machine, s: State, step: Step, i: nat) {
    step.Reconciled? && !step.saved && MailCount(Apply(m, s, step).c.mails, i) > MailCount(s.c.mails, i)
  }

  function LostMails(m: Machine, s: State, steps: seq<Step>, i: nat): nat
    decreases |steps|
  {
    if steps == [] then 0
    else (if LosesMail(m, s, steps[0], i) then 1 else 0) + LostMails(m, Apply(m, s, steps[0]), steps[1..], i)
  }

  lemma StepMails(m: Machine, s: State, step: Step, i: nat)
    ensures var t := Apply(m, s, step);
            && MailCount(t.c.mails, i) + One(Done(s, i))
                 <= MailCount(s.c.mails, i) + One(LosesMail(m, s, step, i)) + One(Done(t, i))
            && (LatchHonest(s) ==> LatchHonest(t))
            && (AllEmailsSent in s.c.status.conditions ==> AllEmailsSent in t.c.status.conditions)
            && (Done(s, i) ==> Done(t, i))
  {
    hide Reconcile, MailCount, ValidateUpdate, NextPending;
    if step.Reconciled? {
      var j := JobOf(m, s, step.env);
      PassPhase(j, s.c);
      if Rank(s.c.status.phase) < 2 {
        EarlyPass(j, s.c);
      } else if s.c.status.phase == Ready && Draining(j, s.c) {
        DrainMails(j, s.c);
        var next := NextPending(s.c.status.students, 0).value;
        CountAppended(s.c.mails, Mail(StudentAddress(j.spec, next), StudentURL(next, s.c.status.students[next].url),
                                      !j.env.undelivered(StudentLetter(next))), i);
      } else {
        QuietPass(j, s.c);
      }
    }
  }

  lemma {:induction false} RunMails(m: Machine, s: State, steps: seq<Step>, i: nat)
    ensures var t := Run(m, s, steps);
            && MailCount(t.c.mails, i) + One(Done(s, i))
                 <= MailCount(s.c.mails, i) + LostMails(m, s, steps, i) + One(Done(t, i))
            && (LatchHonest(s) ==> LatchHonest(t))
            && (AllEmailsSent in s.c.status.conditions ==> AllEmailsSent in t.c.status.conditions)
            && (Done(s, i) ==> Done(t, i))
    decreases |steps|
  {
    hide Apply, MailCount, LatchHonest, Done, LosesMail;
    if steps != [] {
      StepMails(m, s, steps[0], i);
      RunMails(m, Apply(m, s, steps[0]), steps[1..], i);
    }
  }

  /** In every run each student is mailed at most once, and once more for every lost write of a pass
      that mailed her. */
  lemma MailedAtMostOnce(m: Machine, s: State, steps: seq<Step>, i: nat)
    requires Initial(m, s)
    ensures MailCount(Run(m, s, steps).c.mails, i) <= 1 + LostMails(m, s, steps, i)
  {
    hide Apply, Run, LostMails;
    RunMails(m, s, steps, i);
  }

  /** Once the latch is on it stays on, and no student is pending in any later state. */
  lemma LatchHolds(m: Machine, s: State, steps: seq<Step>)
    requires LatchHonest(s) && AllEmailsSent in s.c.status.conditions
    ensures var t := Run(m, s, steps).c.status;
            AllEmailsSent in t.conditions && NonePending(t.students)
  {
    hide Apply, Run;
    RunMails(m, s, steps, 0);
  }

  /** In a reachable state the drain never runs off the spec, and the link is the student's own. */
  lemma MailGoesToItsStudent(m: Machine, s: State, env: Env)
    requires LinedUp(m, s) && s.c.status.phase == Ready && Draining(JobOf(m, s, env), s.c)
    ensures var i := NextPending(s.c.status.students, 0).value;
            && i < |s.spec.students| && s.c.status.students[i].id == s.spec.students[i].id
            && AfterPass(m, s, env, true).c.mails ==
                 s.c.mails + [Mail(s.spec.students[i].email,
                                   StudentURL(i, "https://" + s.c.status.students[i].slug + "." + m.platform.domain),
                                   !env.undelivered(StudentLetter(i)))]
  {
    hide Reconcile;
    var i := NextPending(s.c.status.students, 0).value;
    assert GoodStudent(m.platform.domain, s.spec, i, s.c.status.students[i]);
    DrainMails(JobOf(m, s, env), s.c);
  }
}
