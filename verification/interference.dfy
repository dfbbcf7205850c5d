/** A pass for one exam leaves everything of every other exam alone. */
module Interference {
  import opened ExamApi
  import opened Timetable
  import opened Objects
  import opened Store
  import opened Metrics
  import opened Oracle
  import opened Pass
  import opened System
  import opened Alignment
  import opened Footprint

  /** What a pass for `x` in `ns` may do to the world. */
  ghost predicate Contained(x: Ref, ns: string, template: Template, opening: bool, c: Ctx, d: Ctx) {
    && Changes(x, ns, template, opening, c.store, d.store)
    && (forall e: Series :: e.exam != x ==> (e in c.series <==> e in d.series))
    && c.mails <= d.mails
  }

  lemma ContainedTransitive(x: Ref, ns: string, template: Template, opening: bool, c: Ctx, d: Ctx, e: Ctx)
    requires Contained(x, ns, template, opening, c, d) && Contained(x, ns, template, opening, d, e)
    ensures Contained(x, ns, template, opening, c, e)
  {
    hide Changes;
    ChangesTransitive(x, ns, template, opening, c.store, d.store, e.store);
  }

  lemma {:induction false} StudentsContained(j: Job, c: Ctx, i: nat, healthy: bool)
    requires j.env.Valid() && i <= |j.spec.students| && i <= |c.status.students|
    requires GoodLists(j.platform.domain, j.spec, c.status)
    ensures Contained(j.x, j.ns, j.spec.template, false, c, ProvisionStudents(j, c, i, healthy).c)
    decreases |j.spec.students| - i
  {
    hide ProvisionInstance, FindStudentSlug, Changes, GoodStudent, GoodSpare, GoodLists;
    assert Contained(j.x, j.ns, j.spec.template, false, c, c) by { SelfContained(j.x, j.ns, j.spec.template, false, c); }
    if i < |j.spec.students| && FindStudentSlug(j, c, i).Some? {
      var slug := FindStudentSlug(j, c, i).value;
      StudentSlugNotEmpty(j, c, i);
      var d := ProvisionStudent(j, c, i, slug);
      var ok := !ProvisionInstance(j, c.store, StudentAt(i), j.spec.students[i].id, slug).err;
      InstanceChanges(j, c.store, StudentAt(i), j.spec.students[i].id, slug);
      ProvisionStudentAligned(j, c, i);
      StudentsContained(j, d, i + 1, healthy && ok);
      ContainedTransitive(j.x, j.ns, j.spec.template, false, c, d, ProvisionStudents(j, d, i + 1, healthy && ok).c);
    }
  }

  lemma SelfContained(x: Ref, ns: string, template: Template, opening: bool, c: Ctx)
    ensures Contained(x, ns, template, opening, c, c)
  {
  }

  lemma SpareSlugNotEmpty(j: Job, c: Ctx, i: nat)
    requires j.env.Valid() && FindSpareSlug(j, c, i).Some?
    ensures FindSpareSlug(j, c, i).value != ""
  {
    hide LeftoverSpareSlugs;
    SortedSlugsNotEmpty(j, c.store, i);
    var leftovers := LeftoverSpareSlugs(j, c.store, i);
    assert i < |leftovers| ==> leftovers[i] in leftovers;
  }

  lemma {:induction false} SparesContained(j: Job, c: Ctx, i: nat, healthy: bool)
    requires j.env.Valid()
    ensures Contained(j.x, j.ns, j.spec.template, false, c, ProvisionSpares(j, c, i, healthy).c)
    decreases j.spec.spares - i
  {
    hide ProvisionInstance, FindSpareSlug, Changes;
    assert Contained(j.x, j.ns, j.spec.template, false, c, c) by { SelfContained(j.x, j.ns, j.spec.template, false, c); }
    if i < j.spec.spares && FindSpareSlug(j, c, i).Some? {
      var slug := FindSpareSlug(j, c, i).value;
      SpareSlugNotEmpty(j, c, i);
      var d := ProvisionSpare(j, c, i, slug);
      var ok := !ProvisionInstance(j, c.store, SpareAt(i), "", slug).err;
      InstanceChanges(j, c.store, SpareAt(i), "", slug);
      SparesContained(j, d, i + 1, healthy && ok);
      ContainedTransitive(j.x, j.ns, j.spec.template, false, c, d, ProvisionSpares(j, d, i + 1, healthy && ok).c);
    }
  }

  lemma SettleContained(j: Job, c: Ctx, healthy: bool)
    requires j.env.Valid()
    ensures Contained(j.x, j.ns, j.spec.template, false, c, Settle(j, c, healthy).c)
  {
    hide Cleanup, Changes, AllInstancesHealthy, ValidSlugs;
    var marked := if healthy then c else c.(status := AddCondition(c.status, ProvisioningDegraded));
    CleanupChanges(j, marked.store, ValidSlugs(marked.status));
  }

  lemma ProvisioningContained(j: Job, c: Ctx)
    requires j.env.Valid() && GoodLists(j.platform.domain, j.spec, c.status)
    ensures Contained(j.x, j.ns, j.spec.template, false, c, ReconcileProvisioning(j, c).c)
  {
    hide ProvisionStudents, ProvisionSpares, Settle, Changes, GoodStudent, GoodSpare, NamespaceObject;
    var f := j.env.fault(NamespaceCreate);
    var made := Create(c.store, NamespaceKey(j.ns), NamespaceObject(j.x), f);
    var c0 := c.(store := made.store);
    CreateChanges(j.x, j.ns, j.spec.template, false, c.store, NamespaceKey(j.ns), NamespaceObject(j.x), f);
    if !made.err && !SecretFails(j) {
      var students := ProvisionStudents(j, c0, 0, true);
      StudentsContained(j, c0, 0, true);
      ContainedTransitive(j.x, j.ns, j.spec.template, false, c, c0, students.c);
      if !students.err {
        var spares := ProvisionSpares(j, students.c, 0, students.healthy);
        SparesContained(j, students.c, 0, students.healthy);
        ContainedTransitive(j.x, j.ns, j.spec.template, false, c, students.c, spares.c);
        if !spares.err {
          SettleContained(j, spares.c, spares.healthy);
          ContainedTransitive(j.x, j.ns, j.spec.template, false, c, spares.c, Settle(j, spares.c, spares.healthy).c);
        }
      }
    }
  }

  lemma ReadyContained(j: Job, c: Ctx)
    ensures Contained(j.x, j.ns, j.spec.template, false, c, ReconcileReady(j, c).c)
  {
    hide EnforceFrom, Changes, NextWake, MailDue, DryRunDue, Entries;
    assert Changes(j.x, j.ns, j.spec.template, false, c.store, c.store) by { SelfContained(j.x, j.ns, j.spec.template, false, c); }
    var sent := c.(status := AddCondition(c.status, AllEmailsSent));
    var checked := if DryRunDue(j.spec, c.status, j.now) then RunDryRun(j, c) else c;
    var sentChecked := if DryRunDue(j.spec, sent.status, j.now) then RunDryRun(j, sent) else sent;
    EnforceChanges(j, c.store, Entries(checked.status), 0, false);
    EnforceChanges(j, c.store, Entries(sentChecked.status), 0, false);
  }

  lemma UnlockContained(j: Job, c: Ctx)
    ensures Contained(j.x, j.ns, j.spec.template, true, c, ReconcileUnlock(j, c).c)
  {
    hide EnforceFrom, Changes, Entries, MarkStudents, MarkSpares, FailedMails;
    EnforceChanges(j, c.store, Entries(c.status), 0, true);
  }

  lemma LockedContained(j: Job, c: Ctx)
    requires j.env.Valid()
    ensures Contained(j.x, j.ns, j.spec.template, false, c, ReconcileLocked(j, c).c)
  {
    hide EnforceFrom, DeleteEach, Changes, Entries, MarkStudents, MarkSpares, CountStudents, Owned;
    var closed := EnforcePolicies(j, c, false);
    EnforceChanges(j, c.store, Entries(c.status), 0, false);
    assert Changes(j.x, j.ns, j.spec.template, false, closed.store, closed.store) by { SelfContained(j.x, j.ns, j.spec.template, false, closed); }
    if !ListFails(j.env, IngressList) {
      var items := j.env.order(IngressList, Owned(j, closed.store, IngressKind));
      ListingLocal(j, closed.store, IngressKind, IngressList);
      DeleteEachChanges(j.x, j.ns, j.spec.template, closed.store, items, j.env);
    }
    ChangesTransitive(j.x, j.ns, j.spec.template, false, c.store, closed.store, DeleteIngresses(j, closed.store).store);
  }

  lemma TeardownContained(j: Job, c: Ctx)
    ensures Contained(j.x, j.ns, j.spec.template, false, c, ReconcileTeardown(j, c).c)
  {
    hide WellMade;
  }

  /** A pass makes only well-made local objects, opens access only in Unlocked, and only appends mail. */
  lemma PassContained(j: Job, c: Ctx)
    requires j.env.Valid() && Aligned(j.platform.domain, j.spec, c.status)
    ensures var o := Reconcile(j, c);
            Contained(j.x, j.ns, j.spec.template, Begin(j, c).status.phase == Phase.Unlocked, c, o.c)
  {
    hide ReconcileProvisioning, ReconcileReady, ReconcileUnlock, ReconcileLocked, ReconcileTeardown,
         Changes, Summarize, ComputeSchedule, GoodStudent, GoodSpare;
    var b := Begin(j, c);
    var opening := b.status.phase == Phase.Unlocked;
    SelfContained(j.x, j.ns, j.spec.template, opening, c);
    assert Contained(j.x, j.ns, j.spec.template, opening, c, b);
    var o := Dispatch(j, b);
    match b.status.phase {
      case Unset =>
      case Pending =>
      case Provisioning => ProvisioningContained(j, b);
      case Ready => ReadyContained(j, b);
      case Unlocked => UnlockContained(j, b);
      case Locked => LockedContained(j, b);
      case TearingDown => TeardownContained(j, b);
    }
    SelfContained(j.x, j.ns, j.spec.template, opening, b);
    assert Contained(j.x, j.ns, j.spec.template, opening, b, o.c);
    ContainedTransitive(j.x, j.ns, j.spec.template, opening, c, b, o.c);
  }

  /** Two exams in different namespaces: a pass for one is, to the other, just the world moving on. */
  lemma PassesDoNotInterfere(m: Machine, s: State, env: Env, saved: bool, other: Machine, t: State)
    requires env.Valid() && Aligned(m.platform.domain, s.spec, s.c.status)
    requires m.ns != other.ns && m.ns != "" && other.ns != "" && m.x != other.x
    requires t.c.store == s.c.store && t.c.series == s.c.series
    ensures var after := AfterPass(m, s, env, saved);
            Enabled(other, t, Elsewhere(after.c.store, after.c.series))
  {
    hide Reconcile, WellMade;
    PassContained(JobOf(m, s, env), s.c);
  }
}
