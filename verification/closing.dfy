/** Locking for good: one clean Locked pass and nothing of the exam can be reached ever again. */
module Closing {
  import opened Prelude
  import opened ExamApi
  import opened Timetable
  import opened Webhook
  import opened Objects
  import opened Store
  import opened Oracle
  import opened Pass
  import opened System
  import opened Lifecycle
  import opened Alignment
  import opened Identity
  import opened Footprint
  import opened Interference
  import opened Access
  import opened Wakeup
  import opened Reachability

  ghost predicate Recorded(es: seq<Entry>, k: Key) {
    exists e :: 0 <= e < |es| && es[e].slug == SlugOf(k.name)
  }

  /** Whatever lets someone in belongs to an entry of the recorded status. */
  ghost predicate AccessRecorded(m: Machine, s: State) {
    forall k :: k in s.c.store && k.namespace == m.ns && IsAccess(k) ==> Recorded(Entries(s.c.status), k)
  }

  lemma EntryOpens(j: Job, s: Cluster, i: nat, e: Entry, unlocked: bool, k: Key)
    requires k in EnforceEntry(j, s, i, e, unlocked) && k !in s && IsAccess(k)
    ensures SlugOf(k.name) == e.slug
  {
    hide PolicyObject, IngressObject;
  }

  lemma {:induction false} EnforceOpensRecorded(j: Job, s: Cluster, es: seq<Entry>, i: nat, unlocked: bool, k: Key)
    requires i <= |es| && k in EnforceFrom(j, s, es, i, unlocked) && k !in s && IsAccess(k)
    ensures Recorded(es, k)
    decreases |es| - i
  {
    hide EnforceEntry, IsAccess;
    if i < |es| {
      var t := EnforceEntry(j, s, i, es[i], unlocked);
      if k in t {
        EntryOpens(j, s, i, es[i], unlocked, k);
      } else {
        EnforceOpensRecorded(j, t, es, i + 1, unlocked, k);
      }
    }
  }

  lemma MarkKeepsEntries(c: Ctx, phase: InstancePhase)
    ensures Entries(MarkInstances(c, phase).status) == Entries(c.status)
  {
  }

  lemma UnlockKeepsEntries(j: Job, c: Ctx)
    ensures Entries(ReconcileUnlock(j, c).c.status) == Entries(c.status)
  {
    hide EnforceFrom, FailedMails, Notify, MarkInstances, Entries;
    var d := MarkInstances(EnforcePolicies(j, c, true), InstanceUnlocked);
    MarkKeepsEntries(EnforcePolicies(j, c, true), InstanceUnlocked);
    NotifyKeepsLists(j, d, UnlockLetter,
      UnlockNotice(|j.spec.students|, j.spec.spares, FailedMails(d.status.students)), InstructorNotifiedUnlock);
    SameListsSameEntries(ReconcileUnlock(j, c).c.status, d.status);
  }

  lemma LockedKeepsEntries(j: Job, c: Ctx)
    ensures Entries(ReconcileLocked(j, c).c.status) == Entries(c.status)
  {
    hide EnforceFrom, CountStudents, DeleteIngresses, Notify, MarkInstances, Entries;
    var closed := EnforcePolicies(j, c, false);
    var removed := closed.(store := DeleteIngresses(j, closed.store).store);
    var d := MarkInstances(removed, InstanceLocked);
    MarkKeepsEntries(removed, InstanceLocked);
    var lost := CountStudents(d.status.students, Failed);
    NotifyKeepsLists(j, d, LockLetter,
      LockNotice(|j.spec.students|, Max(|d.status.students| - lost, 0), lost), InstructorNotifiedLock);
    if !ReconcileLocked(j, c).err {
      SameListsSameEntries(ReconcileLocked(j, c).c.status, d.status);
    }
  }

  lemma ReadyKeepsEntries(j: Job, c: Ctx)
    ensures Entries(ReconcileReady(j, c).c.status) == Entries(c.status)
  {
    hide EnforceFrom, NextWake, MailDue, DryRunDue;
  }

  lemma PassKeepsEntries(j: Job, c: Ctx)
    requires Rank(c.status.phase) >= 2
    ensures Entries(Reconcile(j, c).c.status) == Entries(c.status)
  {
    hide ReconcileProvisioning, ReconcileReady, ReconcileUnlock, ReconcileLocked, ComputeSchedule, Summarize, Entries;
    var b := Begin(j, c);
    BeginPlaces(j, c);
    SameListsSameEntries(b.status, c.status);
    match b.status.phase {
      case Ready => ReadyKeepsEntries(j, b);
      case Unlocked => UnlockKeepsEntries(j, b);
      case Locked => LockedKeepsEntries(j, b);
      case TearingDown => SameListsSameEntries(ReconcileTeardown(j, b).c.status, b.status);
    }
    SameListsSameEntries(Reconcile(j, c).c.status, Dispatch(j, b).c.status);
  }

  lemma UnlockStore(j: Job, c: Ctx)
    ensures ReconcileUnlock(j, c).c.store == EnforceFrom(j, c.store, Entries(c.status), 0, true)
  {
    hide EnforceFrom, Notify, MarkStudents, MarkSpares, FailedMails, Entries;
    var d := MarkInstances(EnforcePolicies(j, c, true), InstanceUnlocked);
    NotifyKeepsLists(j, d, UnlockLetter,
      UnlockNotice(|j.spec.students|, j.spec.spares, FailedMails(d.status.students)), InstructorNotifiedUnlock);
  }

  lemma PassRecordsAccess(m: Machine, s: State, env: Env, saved: bool)
    requires m.ns != "" && Gated(m, s) && AccessRecorded(m, s) && env.Valid()
    ensures AccessRecorded(m, AfterPass(m, s, env, saved))
  {
    hide Reconcile, WellMade, GoodStudent, GoodSpare, LockTime, DesiredPhase, Recorded, IsAccess, ReconcileUnlock;
    var j := JobOf(m, s, env);
    var t := AfterPass(m, s, env, saved);
    PassContained(j, s.c);
    OpeningPass(j, s.c);
    forall k | k in t.c.store && k.namespace == m.ns && IsAccess(k) ensures Recorded(Entries(t.c.status), k) {
      assert Rank(s.c.status.phase) >= 2;
      PassKeepsEntries(j, s.c);
      if k !in s.c.store {
        UnlockingRecords(j, s.c, k);
      }
    }
  }

  lemma UnlockingRecords(j: Job, c: Ctx, k: Key)
    requires Begin(j, c).status.phase == Phase.Unlocked
    requires k in Reconcile(j, c).c.store && k !in c.store && IsAccess(k)
    ensures Recorded(Entries(c.status), k)
  {
    hide ReconcileUnlock, Entries, IsAccess, ComputeSchedule, Recorded, Summarize;
    var b := Begin(j, c);
    UnlockStore(j, b);
    EnforceOpensRecorded(j, b.store, Entries(b.status), 0, true, k);
    SameListsSameEntries(b.status, c.status);
  }

  lemma SameListsSameEntries(a: Status, b: Status)
    requires a.students == b.students && a.spares == b.spares
    ensures Entries(a) == Entries(b)
  {
  }

  lemma StepRecordsAccess(m: Machine, s: State, step: Step)
    requires m.ns != "" && Gated(m, s) && AccessRecorded(m, s) && Enabled(m, s, step)
    ensures AccessRecorded(m, Apply(m, s, step))
  {
    hide AfterPass, ValidateUpdate, Recorded, Gated, IsAccess, Entries;
    if step.Reconciled? {
      PassRecordsAccess(m, s, step.env, step.saved);
    }
  }

  lemma {:induction false} RunRecordsAccess(m: Machine, s: State, steps: seq<Step>)
    requires m.ns != "" && Gated(m, s) && AccessRecorded(m, s) && Legal(m, s, steps)
    ensures Gated(m, Run(m, s, steps)) && AccessRecorded(m, Run(m, s, steps))
    decreases |steps|
  {
    hide Apply, Gated, AccessRecorded;
    if steps != [] {
      StepGated(m, s, steps[0]);
      StepRecordsAccess(m, s, steps[0]);
      RunRecordsAccess(m, Apply(m, s, steps[0]), steps[1..]);
    }
  }

  /** What a Locked pass without error does to the cluster. */
  lemma LockedStore(j: Job, c: Ctx)
    requires j.env.Valid() && !ReconcileLocked(j, c).err
    ensures var t := ReconcileLocked(j, c).c.store;
            && Owned(j, t, IngressKind) == {}
            && forall k :: k in t ==> k in EnforcePolicies(j, c, false).store
  {
    hide EnforceFrom, DeleteEach, Notify, MarkStudents, MarkSpares, CountStudents, Entries, Owned;
    LockedPassRemovesRoutes(j, c);
    var closed := EnforcePolicies(j, c, false);
    var items := j.env.order(IngressList, Owned(j, closed.store, IngressKind));
    DeleteEachDeletes(closed.store, items, j.env);
    var marked := MarkInstances(closed.(store := DeleteIngresses(j, closed.store).store), InstanceLocked);
    var lost := CountStudents(marked.status.students, Failed);
    NotifyKeepsLists(j, marked, LockLetter,
      LockNotice(|j.spec.students|, Max(|marked.status.students| - lost, 0), lost), InstructorNotifiedLock);
  }

  lemma RouteIsOwned(j: Job, s: Cluster, k: Key)
    requires k in s && k.namespace == j.ns && k.kind == IngressKind && WellMade(j.x, j.spec.template, k, s[k])
    ensures k in Owned(j, s, IngressKind)
  {
  }

  /** The pass works in Locked, meets no error and has no delete of an ingress-allow refused. */
  ghost predicate LocksCleanly(m: Machine, s: State, env: Env) {
    var o := Reconcile(JobOf(m, s, env), s.c);
    && !o.err && o.c.status.phase == Phase.Locked
    && forall e :: 0 <= e < |Entries(s.c.status)| ==> env.fault(Unmake(EntryAt(e))) != Refused
  }

  lemma LockedPassCloses(m: Machine, s: State, env: Env)
    requires m.ns != "" && Gated(m, s) && AccessRecorded(m, s) && env.Valid() && LocksCleanly(m, s, env)
    ensures NoAccess(m.ns, AfterPass(m, s, env, true).c.store)
  {
    hide WellMade, GoodStudent, GoodSpare, LockTime, Recorded, ReconcileLocked, ReconcileProvisioning, EnforcePolicies,
         Entries, ReconcileReady, ReconcileUnlock, ReconcileTeardown, Summarize, ComputeSchedule, Owned;
    var j := JobOf(m, s, env);
    var b := Begin(j, s.c);
    var t := AfterPass(m, s, env, true);
    PassGated(m, s, env, true);
    WorksInLocked(j, s.c);
    LockedStore(j, b);
    var closed := EnforcePolicies(j, b, false).store;
    SameListsSameEntries(b.status, s.c.status);
    forall k | k in t.c.store && k.namespace == m.ns ensures !IsAccess(k) {
      if k.kind == IngressKind {
        RouteIsOwned(j, t.c.store, k);
      } else if IsAccess(k) {
        assert k in s.c.store by { NothingOpened(m, s, env, k); }
        assert Recorded(Entries(b.status), k);
        RecordedRemoved(j, b, k);
      }
    }
  }

  lemma WorksInLocked(j: Job, c: Ctx)
    requires Reconcile(j, c).c.status.phase == Phase.Locked
    ensures var b := Begin(j, c);
            && b.status.phase == Phase.Locked && b.store == c.store
            && b.status.students == c.status.students && b.status.spares == c.status.spares
            && Reconcile(j, c).err == ReconcileLocked(j, b).err
            && Reconcile(j, c).c.store == ReconcileLocked(j, b).c.store
  {
    hide ReconcileProvisioning, ReconcileReady, ReconcileUnlock, ReconcileLocked, ReconcileTeardown, Summarize,
         ComputeSchedule, DesiredPhase;
    PassPhase(j, c);
    BeginPlaces(j, c);
  }

  lemma NothingOpened(m: Machine, s: State, env: Env, k: Key)
    requires m.ns != "" && Gated(m, s) && env.Valid()
    requires Begin(JobOf(m, s, env), s.c).status.phase != Phase.Unlocked
    requires k in Reconcile(JobOf(m, s, env), s.c).c.store && IsAccess(k)
    ensures k in s.c.store
  {
    hide Reconcile, WellMade, GoodStudent, GoodSpare, LockTime, DesiredPhase;
    PassContained(JobOf(m, s, env), s.c);
  }

  lemma RecordedRemoved(j: Job, c: Ctx, k: Key)
    requires Recorded(Entries(c.status), k) && k.namespace == j.ns
    requires k.kind == PolicyKind && k.name.PolicyName? && k.name.part == IngressAllowPart
    requires forall e :: 0 <= e < |Entries(c.status)| ==> j.env.fault(Unmake(EntryAt(e))) != Refused
    ensures k !in EnforcePolicies(j, c, false).store
  {
    hide EnforcePolicies, Entries;
    var e :| 0 <= e < |Entries(c.status)| && Entries(c.status)[e].slug == SlugOf(k.name);
    ClosedPassRemovesAllows(j, c, e);
    assert k == PolicyKey(j.ns, IngressAllowPart, Entries(c.status)[e].slug);
  }

  /** After a recorded Locked pass that met no error and had no delete refused, there is no route and no
      ingress-allow policy in the exam's namespace, and there is none in any state of any later run. */
  lemma LockedForGood(m: Machine, s: State, env: Env, steps: seq<Step>)
    requires m.ns != "" && Gated(m, s) && AccessRecorded(m, s) && env.Valid()
    ensures var t := AfterPass(m, s, env, true);
            LocksCleanly(m, s, env) && Legal(m, t, steps) ==> NoAccess(m.ns, Run(m, t, steps).c.store)
  {
    hide Reconcile, Gated, AccessRecorded, Entries, IsAccess, Run, Legal;
    var t := AfterPass(m, s, env, true);
    if LocksCleanly(m, s, env) && Legal(m, t, steps) {
      LockedPassCloses(m, s, env);
      PassGated(m, s, env, true);
      forall k | k in Run(m, t, steps).c.store && k.namespace == m.ns ensures !IsAccess(k) {
        if IsAccess(k) {
          NeverReopened(m, t, steps, k);
          assert false;
        }
      }
    }
  }

  /** Both hypotheses hold in every state an exam can reach. */
  lemma ReachableAccess(m: Machine, s: State, steps: seq<Step>)
    requires m.ns != "" && Initial(m, s) && Legal(m, s, steps)
    ensures Gated(m, Run(m, s, steps)) && AccessRecorded(m, Run(m, s, steps))
  {
    hide Apply, Run, WellMade, LockTime, Recorded, Legal;
    InitialLinedUp(m, s);
    RunRecordsAccess(m, s, steps);
  }

  // Late exams.

  /** Nothing on the way to Unlocked looks at the lock time: a pass works in Unlocked at or after the lock
      exactly when it finds the exam Ready that late. */
  lemma OpensLateIff(m: Machine, s: State, env: Env)
    requires OnTime(s)
    ensures var late := LockTime(s.spec.schedule) <= s.clock;
            late && Begin(JobOf(m, s, env), s.c).status.phase == Phase.Unlocked <==> late && s.c.status.phase == Ready
  {
    hide LockTime, Truncate;
    LastsAtLeast(s.spec.schedule);
  }

  /** Such a pass does let everyone in, unless a call is refused. */
  lemma LateExamOpens(m: Machine, s: State, env: Env)
    requires OnTime(s) && s.c.status.phase == Ready && LockTime(s.spec.schedule) <= s.clock
    ensures var t := AfterPass(m, s, env, true);
            && t.c.status.phase == Phase.Unlocked
            && (NothingRefused(env) ==>
                  forall e :: 0 <= e < |Entries(s.c.status)| ==>
                    && IngressKey(m.ns, Entries(s.c.status)[e].slug) in t.c.store
                    && PolicyKey(m.ns, IngressAllowPart, Entries(s.c.status)[e].slug) in t.c.store)
  {
    hide LockTime, ReconcileUnlock, Entries, Summarize, EnforceFrom;
    var j := JobOf(m, s, env);
    var b := Begin(j, s.c);
    OpensLateIff(m, s, env);
    PassPhase(j, s.c);
    UnlockStore(j, b);
    SameListsSameEntries(b.status, s.c.status);
    if NothingRefused(env) {
      EnforceEstablishes(j, b.store, Entries(b.status), 0, true);
    }
  }

  /** No status is recorded by these steps. */
  predicate NothingSaved(steps: seq<Step>) {
    forall i :: 0 <= i < |steps| ==> !(steps[i].Reconciled? && steps[i].saved)
  }

  lemma {:induction false} UnsavedRunKeepsStatus(m: Machine, s: State, steps: seq<Step>)
    requires NothingSaved(steps)
    ensures Run(m, s, steps).c.status == s.c.status && s.clock <= Run(m, s, steps).clock
    decreases |steps|
  {
    hide Apply;
    if steps != [] {
      StepPhase(m, s, steps[0]);
      UnsavedRunKeepsStatus(m, Apply(m, s, steps[0]), steps[1..]);
    }
  }

  /** Whatever happens up to the next saved pass, that pass works in Locked exactly when the lock time of
      the spec of then is past: at once, unless an extension has been accepted. */
  lemma LateExamNextIff(m: Machine, t: State, between: seq<Step>, next: Env)
    requires t.c.status.phase == Phase.Unlocked && LockTime(t.spec.schedule) <= t.clock && NothingSaved(between)
    ensures var v := Run(m, t, between);
            && (Begin(JobOf(m, v, next), v.c).status.phase == Phase.Locked <==> LockTime(v.spec.schedule) <= v.clock)
            && (Begin(JobOf(m, v, next), v.c).status.phase == Phase.Unlocked <==> v.clock < LockTime(v.spec.schedule))
    ensures (forall i :: 0 <= i < |between| ==> !between[i].Edit?) ==>
              LockTime(Run(m, t, between).spec.schedule) <= Run(m, t, between).clock
  {
    hide LockTime, Run;
    UnsavedRunKeepsStatus(m, t, between);
    if forall i :: 0 <= i < |between| ==> !between[i].Edit? {
      NoEditNoChange(m, t, between);
    }
  }

  /** An extension of a late exam is accepted and keeps it open: any admitted spec of the same identity
      whose lock time is still to come. */
  lemma LateExamExtended(m: Machine, t: State, later: Spec, next: Env)
    requires t.c.status.phase == Phase.Unlocked && LockTime(t.spec.schedule) <= t.clock
    requires ValidSpec(later) && SameIdentity(t.spec, later) && t.clock < LockTime(later.schedule)
    ensures var v := Apply(m, t, Edit(later));
            v.spec == later && Begin(JobOf(m, v, next), v.c).status.phase == Phase.Unlocked
  {
    hide LockTime, ValidSpec, SameIdentity;
  }

  /** If it is not extended, the next saved pass that locks cleanly shuts it in every state of every later
      run; ticks, failed and lost passes and drift in between make no difference. */
  lemma LateExamShut(m: Machine, t: State, between: seq<Step>, next: Env, steps: seq<Step>)
    requires m.ns != "" && Gated(m, t) && AccessRecorded(m, t) && next.Valid()
    requires t.c.status.phase == Phase.Unlocked && LockTime(t.spec.schedule) <= t.clock
    requires Legal(m, t, between) && NothingSaved(between)
    ensures var v := Run(m, t, between);
            var u := AfterPass(m, v, next, true);
            LockTime(v.spec.schedule) <= v.clock ==>
              && u.c.status.phase == Phase.Locked
              && (LocksCleanly(m, v, next) && Legal(m, u, steps) ==> NoAccess(m.ns, Run(m, u, steps).c.store))
  {
    hide LockTime, Reconcile, AccessRecorded, Entries, Run, Legal, NoAccess, Gated, WellMade;
    var v := Run(m, t, between);
    LateExamNextIff(m, t, between, next);
    RunRecordsAccess(m, t, between);
    PassPhase(JobOf(m, v, next), v.c);
    BeginPlaces(JobOf(m, v, next), v.c);
    LockedForGood(m, v, next, steps);
  }
}
