/** The recorded entries line up with the spec, and what was recorded once is never changed. */
module Alignment {
  import opened Prelude
  import opened ExamApi
  import opened Timetable
  import opened Objects
  import opened Store
  import opened Oracle
  import opened Pass

  predicate GoodStudent(domain: string, spec: Spec, i: nat, e: StudentStatus) {
    && i < |spec.students|
    && e.id == spec.students[i].id
    && e.slug != ""
    && e.url == InstanceURL(domain, e.slug)
    && e.phase != NoInstance
    && e.email != NoEmail
  }

  predicate GoodSpare(domain: string, e: SpareStatus) {
    (e.slug == "" && e.url == "") || (e.slug != "" && e.url == InstanceURL(domain, e.slug) && e.phase != NoInstance)
  }

  ghost predicate OneSlugPerID(students: seq<StudentStatus>) {
    forall i, k :: 0 <= i < k < |students| && students[i].id == students[k].id ==> students[i].slug == students[k].slug
  }

  /** The lists hold one good entry per position of the spec, as far as they go. */
  ghost predicate GoodLists(domain: string, spec: Spec, st: Status) {
    && |st.students| <= |spec.students|
    && (forall i :: 0 <= i < |st.students| ==> GoodStudent(domain, spec, i, st.students[i]))
    && OneSlugPerID(st.students)
    && |st.spares| <= Max(spec.spares, 0)
    && (forall i :: 0 <= i < |st.spares| ==> GoodSpare(domain, st.spares[i]))
  }

  ghost predicate Aligned(domain: string, spec: Spec, st: Status) {
    && GoodLists(domain, spec, st)
    && (Rank(st.phase) == 0 ==> st.students == [] && st.spares == [])
    && (Rank(st.phase) >= 2 ==> |st.students| == |spec.students|)
  }

  predicate SameStudent(a: StudentStatus, b: StudentStatus) {
    a.id == b.id && a.slug == b.slug && a.url == b.url
  }

  predicate SameSpare(a: SpareStatus, b: SpareStatus) {
    a.slug == "" || (a.slug == b.slug && a.url == b.url)
  }

  /** Every identity, slug and URL in `a` is still there, at the same position, in `b`. */
  ghost predicate Frozen(a: Status, b: Status) {
    && |a.students| <= |b.students|
    && (forall i :: 0 <= i < |a.students| ==> SameStudent(a.students[i], b.students[i]))
    && |a.spares| <= |b.spares|
    && (forall i :: 0 <= i < |a.spares| ==> SameSpare(a.spares[i], b.spares[i]))
  }

  lemma FrozenTransitive(a: Status, b: Status, c: Status)
    requires Frozen(a, b) && Frozen(b, c)
    ensures Frozen(a, c)
  {
    forall i | 0 <= i < |a.spares| ensures SameSpare(a.spares[i], c.spares[i]) {
      assert SameSpare(a.spares[i], b.spares[i]) && SameSpare(b.spares[i], c.spares[i]);
    }
  }

  /** What the provisioning loops leave of a status: only the two lists may differ. */
  predicate OnlyLists(a: Status, b: Status) {
    b == a.(students := b.students, spares := b.spares)
  }

  /** The slug found for a student is the one already recorded for her id, if there is one. */
  lemma StudentSlugAgrees(j: Job, c: Ctx, i: nat, k: nat)
    requires i < |j.spec.students| && GoodLists(j.platform.domain, j.spec, c.status)
    requires k < |c.status.students| && c.status.students[k].id == j.spec.students[i].id
    ensures FindStudentSlug(j, c, i) == Some(c.status.students[k].slug)
  {
    hide InstanceURL, LeftoverStudentSlug;
    assert GoodStudent(j.platform.domain, j.spec, k, c.status.students[k]);
  }

  lemma StudentSlugNotEmpty(j: Job, c: Ctx, i: nat)
    requires j.env.Valid() && i < |j.spec.students| && FindStudentSlug(j, c, i).Some?
    ensures FindStudentSlug(j, c, i).value != ""
  {
    hide LeftoverStudentSlug;
  }

  lemma ProvisionStudentAligned(j: Job, c: Ctx, i: nat)
    requires j.env.Valid() && i < |j.spec.students| && i <= |c.status.students|
    requires GoodLists(j.platform.domain, j.spec, c.status)
    requires FindStudentSlug(j, c, i).Some?
    ensures var d := ProvisionStudent(j, c, i, FindStudentSlug(j, c, i).value);
            && GoodLists(j.platform.domain, j.spec, d.status) && Frozen(c.status, d.status)
            && OnlyLists(c.status, d.status) && d.status.spares == c.status.spares
            && i < |d.status.students|
  {
    hide ProvisionInstance, InstanceURL, FindStudentSlug, GoodSpare;
    var slug := FindStudentSlug(j, c, i).value;
    var d := ProvisionStudent(j, c, i, slug);
    StudentSlugNotEmpty(j, c, i);
    if i < |c.status.students| {
      assert GoodStudent(j.platform.domain, j.spec, i, c.status.students[i]);
      StudentSlugAgrees(j, c, i, i);
    }
    forall k | 0 <= k < |c.status.students| && c.status.students[k].id == j.spec.students[i].id
      ensures c.status.students[k].slug == slug
    {
      StudentSlugAgrees(j, c, i, k);
    }
  }

  lemma {:induction false} ProvisionStudentsAligned(j: Job, c: Ctx, i: nat, healthy: bool)
    requires j.env.Valid() && i <= |j.spec.students| && i <= |c.status.students|
    requires GoodLists(j.platform.domain, j.spec, c.status)
    ensures var r := ProvisionStudents(j, c, i, healthy);
            && GoodLists(j.platform.domain, j.spec, r.c.status) && Frozen(c.status, r.c.status)
            && OnlyLists(c.status, r.c.status) && r.c.status.spares == c.status.spares
            && (!r.err ==> |r.c.status.students| == |j.spec.students|)
    decreases |j.spec.students| - i
  {
    hide ProvisionInstance, ProvisionStudent, FindStudentSlug;
    if i < |j.spec.students| && FindStudentSlug(j, c, i).Some? {
      var slug := FindStudentSlug(j, c, i).value;
      var d := ProvisionStudent(j, c, i, slug);
      var ok := !ProvisionInstance(j, c.store, StudentAt(i), j.spec.students[i].id, slug).err;
      ProvisionStudentAligned(j, c, i);
      ProvisionStudentsAligned(j, d, i + 1, healthy && ok);
      FrozenTransitive(c.status, d.status, ProvisionStudents(j, d, i + 1, healthy && ok).c.status);
    }
  }

  lemma SortedSlugsNotEmpty(j: Job, s: Cluster, i: nat)
    ensures forall x :: x in LeftoverSpareSlugs(j, s, i) ==> x != ""
  {
    hide SortStrings;
    var items := j.env.order(Lookup(SpareAt(i)), Owned(j, s, DeploymentKind));
    SpareSlugsNotEmpty(s, items);
    var found := SpareSlugs(s, items);
    assert multiset(SortStrings(found)) == multiset(found);
    forall x | x in SortStrings(found) ensures x != "" {
      assert x in multiset(SortStrings(found));
      assert x in multiset(found) && x in found;
    }
  }

  lemma {:induction false} SpareSlugsNotEmpty(s: Cluster, items: seq<Key>)
    ensures forall x :: x in SpareSlugs(s, items) ==> x != ""
  {
    if items != [] {
      SpareSlugsNotEmpty(s, items[1..]);
    }
  }

  lemma {:induction false} ProvisionSparesAligned(j: Job, c: Ctx, i: nat, healthy: bool)
    requires j.env.Valid() && i <= Max(j.spec.spares, 0)
    requires GoodLists(j.platform.domain, j.spec, c.status)
    ensures var r := ProvisionSpares(j, c, i, healthy);
            && GoodLists(j.platform.domain, j.spec, r.c.status) && Frozen(c.status, r.c.status)
            && OnlyLists(c.status, r.c.status) && r.c.status.students == c.status.students
    decreases j.spec.spares - i
  {
    hide ProvisionInstance, LeftoverSpareSlugs, InstanceURL;
    if i < j.spec.spares && FindSpareSlug(j, c, i).Some? {
      SortedSlugsNotEmpty(j, c.store, i);
      var slug, leftovers := FindSpareSlug(j, c, i).value, LeftoverSpareSlugs(j, c.store, i);
      assert i < |leftovers| ==> leftovers[i] in leftovers;
      assert slug != "";
      var d := ProvisionSpare(j, c, i, slug);
      var ok := !ProvisionInstance(j, c.store, SpareAt(i), "", slug).err;
      assert GoodSpare(j.platform.domain, BlankSpare);
      forall k | 0 <= k < |c.status.spares| ensures SameSpare(c.status.spares[k], d.status.spares[k]) {
        assert GoodSpare(j.platform.domain, c.status.spares[k]);
      }
      assert Frozen(c.status, d.status);
      ProvisionSparesAligned(j, d, i + 1, healthy && ok);
      FrozenTransitive(c.status, d.status, ProvisionSpares(j, d, i + 1, healthy && ok).c.status);
    }
  }

  lemma ProvisioningAligned(j: Job, c: Ctx)
    requires j.env.Valid() && c.status.phase == Phase.Provisioning
    requires Aligned(j.platform.domain, j.spec, c.status)
    ensures var o := ReconcileProvisioning(j, c);
            Aligned(j.platform.domain, j.spec, o.c.status) && Frozen(c.status, o.c.status)
            && o.c.status.phase in {Phase.Provisioning, Ready}
  {
    hide ProvisionStudents, ProvisionSpares, Cleanup, AllInstancesHealthy, GoodStudent, GoodSpare;
    var made := Create(c.store, NamespaceKey(j.ns), NamespaceObject(j.x), j.env.fault(NamespaceCreate));
    var c0 := c.(store := made.store);
    if !made.err && !SecretFails(j) {
      ProvisionStudentsAligned(j, c0, 0, true);
      var students := ProvisionStudents(j, c0, 0, true);
      if !students.err {
        ProvisionSparesAligned(j, students.c, 0, students.healthy);
        FrozenTransitive(c.status, students.c.status, ProvisionSpares(j, students.c, 0, students.healthy).c.status);
      }
    }
  }

  lemma ReadyAligned(j: Job, c: Ctx)
    requires c.status.phase == Ready && Aligned(j.platform.domain, j.spec, c.status)
    ensures var o := ReconcileReady(j, c);
            Aligned(j.platform.domain, j.spec, o.c.status) && Frozen(c.status, o.c.status)
            && o.c.status.phase == Ready
  {
    hide EnforceFrom, NextWake, DryRunDue, InstanceURL;
    var next := NextPending(c.status.students, 0);
    if MailDue(j.spec, c.status, j.now) && next.Some? {
      var o := ReconcileReady(j, c);
      forall k | 0 <= k < |o.c.status.students|
        ensures GoodStudent(j.platform.domain, j.spec, k, o.c.status.students[k])
      {
        assert GoodStudent(j.platform.domain, j.spec, k, c.status.students[k]);
      }
    }
  }

  lemma MarkedAligned(domain: string, spec: Spec, c: Ctx, phase: InstancePhase)
    requires phase != NoInstance && Aligned(domain, spec, c.status)
    ensures var d := MarkInstances(c, phase);
            Aligned(domain, spec, d.status) && Frozen(c.status, d.status)
  {
    var d := MarkInstances(c, phase);
    forall k | 0 <= k < |d.status.students| ensures GoodStudent(domain, spec, k, d.status.students[k]) {
      assert GoodStudent(domain, spec, k, c.status.students[k]);
    }
    forall k | 0 <= k < |d.status.spares| ensures GoodSpare(domain, d.status.spares[k]) {
      assert GoodSpare(domain, c.status.spares[k]);
    }
  }

  lemma NotifyKeepsLists(j: Job, c: Ctx, letter: Letter, content: Content, done: Condition)
    ensures var d := Notify(j, c, letter, content, done);
            d.status == c.status.(conditions := d.status.conditions) && d.store == c.store
  {
  }

  lemma UnlockAligned(j: Job, c: Ctx)
    requires c.status.phase == Phase.Unlocked && Aligned(j.platform.domain, j.spec, c.status)
    ensures var o := ReconcileUnlock(j, c);
            Aligned(j.platform.domain, j.spec, o.c.status) && Frozen(c.status, o.c.status)
  {
    hide EnforceFrom, Notify, MarkStudents, MarkSpares, FailedMails, GoodStudent, GoodSpare;
    var d := MarkInstances(EnforcePolicies(j, c, true), InstanceUnlocked);
    MarkedAligned(j.platform.domain, j.spec, EnforcePolicies(j, c, true), InstanceUnlocked);
    NotifyKeepsLists(j, d, UnlockLetter,
      UnlockNotice(|j.spec.students|, j.spec.spares, FailedMails(d.status.students)), InstructorNotifiedUnlock);
  }

  lemma LockedAligned(j: Job, c: Ctx)
    requires c.status.phase == Phase.Locked && Aligned(j.platform.domain, j.spec, c.status)
    ensures var o := ReconcileLocked(j, c);
            Aligned(j.platform.domain, j.spec, o.c.status) && Frozen(c.status, o.c.status)
  {
    hide EnforceFrom, DeleteIngresses, Notify, MarkStudents, MarkSpares, CountStudents, GoodStudent, GoodSpare;
    var closed := EnforcePolicies(j, c, false);
    var removed := DeleteIngresses(j, closed.store);
    if !removed.err {
      var e := closed.(store := removed.store);
      var d := MarkInstances(e, InstanceLocked);
      MarkedAligned(j.platform.domain, j.spec, e, InstanceLocked);
      var lost := CountStudents(d.status.students, Failed);
      NotifyKeepsLists(j, d, LockLetter,
        LockNotice(|j.spec.students|, Max(|d.status.students| - lost, 0), lost), InstructorNotifiedLock);
    }
  }

  /** A pass keeps the lists aligned and every recorded identity, slug and URL as it was. */
  lemma PassAligned(j: Job, c: Ctx)
    requires j.env.Valid() && Aligned(j.platform.domain, j.spec, c.status)
    ensures var o := Reconcile(j, c);
            Aligned(j.platform.domain, j.spec, o.c.status) && Frozen(c.status, o.c.status)
  {
    hide ReconcileProvisioning, ReconcileReady, ReconcileUnlock, ReconcileLocked, Summarize, ComputeSchedule,
         GoodStudent, GoodSpare;
    var b := Begin(j, c);
    match b.status.phase
    case Unset =>
    case Pending =>
    case Provisioning => ProvisioningAligned(j, b);
    case Ready => ReadyAligned(j, b);
    case Unlocked => UnlockAligned(j, b);
    case Locked => LockedAligned(j, b);
    case TearingDown =>
  }
}
