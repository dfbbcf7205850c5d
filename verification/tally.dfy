/** What the recorded counts count, and which phase opening and closing an exam give to its instances. */
module Tally {
  import opened ExamApi
  import opened Timetable
  import opened Oracle
  import opened Pass
  import opened System
  import opened Lifecycle
  import opened Alignment
  import opened Identity
  import opened Wakeup
  import opened Counting
  import opened Outcome

  ghost function InPhase(students: seq<StudentStatus>, phase: InstancePhase): set<int> {
    set i | 0 <= i < |students| && students[i].phase == phase
  }

  ghost function SparesInPhase(spares: seq<SpareStatus>, phase: InstancePhase): set<int> {
    set i | 0 <= i < |spares| && spares[i].phase == phase
  }

  ghost function Mailed(students: seq<StudentStatus>, email: EmailStatus): set<int> {
    set i | 0 <= i < |students| && students[i].email == email
  }

  lemma {:induction false} StudentsTallied(students: seq<StudentStatus>, phase: InstancePhase)
    ensures CountStudents(students, phase) == |InPhase(students, phase)|
  {
    if students != [] {
      var n := |students| - 1;
      StudentsTallied(students[..n], phase);
      assert InPhase(students, phase) == InPhase(students[..n], phase) + if students[n].phase == phase then {n} else {};
    }
  }

  lemma {:induction false} SparesTallied(spares: seq<SpareStatus>, phase: InstancePhase)
    ensures CountSpares(spares, phase) == |SparesInPhase(spares, phase)|
  {
    if spares != [] {
      var n := |spares| - 1;
      SparesTallied(spares[..n], phase);
      assert SparesInPhase(spares, phase) == SparesInPhase(spares[..n], phase) + if spares[n].phase == phase then {n} else {};
    }
  }

  lemma {:induction false} MailsTallied(students: seq<StudentStatus>, email: EmailStatus)
    ensures CountEmails(students, email) == |Mailed(students, email)|
  {
    if students != [] {
      var n := |students| - 1;
      MailsTallied(students[..n], email);
      assert Mailed(students, email) == Mailed(students[..n], email) + if students[n].email == email then {n} else {};
    }
  }

  /** Each count of the summary a pass records is the number of the entries it is about. */
  lemma PassTallies(j: Job, c: Ctx)
    ensures var o := Reconcile(j, c).c.status;
            o.phase != TearingDown ==>
              && o.summary.Some?
              && o.summary.value.totalStudents == |j.spec.students| && o.summary.value.totalSpares == j.spec.spares
              && o.summary.value.emailsSent == |Mailed(o.students, EmailSent)|
              && o.summary.value.emailsFailed == |Mailed(o.students, EmailFailed)|
              && o.summary.value.failed == |InPhase(o.students, Failed)| + |SparesInPhase(o.spares, Failed)|
              && o.summary.value.healthy + o.summary.value.failed == |o.students| + |o.spares|
  {
    hide Reconcile, CountStudents, CountEmails, CountSpares;
    var o := Reconcile(j, c).c.status;
    PassSummarizes(j, c);
    StudentsTallied(o.students, Failed);
    SparesTallied(o.spares, Failed);
    MailsTallied(o.students, EmailSent);
    MailsTallied(o.students, EmailFailed);
    StudentsCounted(o.students);
    SparesCounted(o.spares);
  }

  /** After a provisioning pass without error the summary counts as failed exactly the students for whom a
      creation did not go through, and the spares recorded as failed before. */
  lemma FailuresCounted(m: Machine, s: State, env: Env)
    requires LinedUp(m, s) && env.Valid() && Begin(JobOf(m, s, env), s.c).status.phase == Phase.Provisioning
    ensures var o := Reconcile(JobOf(m, s, env), s.c);
            !o.err ==>
              && o.c.status.summary.Some?
              && o.c.status.summary.value.failed
                   == |set i | 0 <= i < |s.spec.students| && !Made(env, StudentAt(i))| + |SparesInPhase(o.c.status.spares, Failed)|
  {
    hide Reconcile, Begin, Made, GoodStudent, GoodSpare, SpareTold, Observes, SpareMail, SparesInPhase;
    var j := JobOf(m, s, env);
    var o := Reconcile(j, s.c);
    if !o.err {
      PassTells(j, s.c);
      PassAligned(j, s.c);
      PassPhase(j, s.c);
      BeginPlaces(j, s.c);
      PassTallies(j, s.c);
      var n := |s.spec.students|;
      if n > 0 {
        assert StudentTold(j, o.c.status, n - 1);
      }
      assert |o.c.status.students| == n;
      forall i: nat | i < n ensures (o.c.status.students[i].phase == Failed) <==> !Made(env, StudentAt(i)) {
        assert StudentTold(j, o.c.status, i);
      }
      assert InPhase(o.c.status.students, Failed) == set i | 0 <= i < n && !Made(env, StudentAt(i));
    }
  }

  /** The opening pass marks every instance that has not failed as unlocked, and a closing pass without error
      marks it as locked; a failed one stays failed. */
  ghost predicate Marked(a: Status, b: Status, phase: InstancePhase) {
    && |b.students| == |a.students| && |b.spares| == |a.spares|
    && (forall i :: 0 <= i < |a.students| ==>
          b.students[i] == a.students[i].(phase := if a.students[i].phase == Failed then Failed else phase))
    && (forall i :: 0 <= i < |a.spares| ==>
          b.spares[i] == a.spares[i].(phase := if a.spares[i].phase == Failed then Failed else phase))
  }

  lemma UnlockMarks(j: Job, c: Ctx)
    ensures Marked(c.status, ReconcileUnlock(j, c).c.status, InstanceUnlocked)
    ensures ReconcileUnlock(j, c).c.status.message == InProgress(|j.spec.students|, j.spec.spares)
  {
    hide EnforceFrom, FailedMails;
  }

  lemma LockMarks(j: Job, c: Ctx)
    ensures var o := ReconcileLocked(j, c);
            !o.err ==> Marked(c.status, o.c.status, InstanceLocked) && o.c.status.message == Ended
  {
    hide EnforceFrom, CountStudents, DeleteIngresses;
  }

  lemma PassMarks(j: Job, c: Ctx)
    ensures var b, o := Begin(j, c).status.phase, Reconcile(j, c);
            && (b == Phase.Unlocked ==>
                  Marked(c.status, o.c.status, InstanceUnlocked)
                  && o.c.status.message == InProgress(|j.spec.students|, j.spec.spares))
            && (b == Phase.Locked && !o.err ==> Marked(c.status, o.c.status, InstanceLocked) && o.c.status.message == Ended)
  {
    hide ReconcileProvisioning, ReconcileReady, ReconcileUnlock, ReconcileLocked, ReconcileTeardown, ComputeSchedule, Summarize;
    var b := Begin(j, c);
    BeginPlaces(j, c);
    UnlockMarks(j, b);
    LockMarks(j, b);
  }
}
