/** Slugs recorded twice strand an exam; and an empty student id makes one be recorded twice. */
module Sharing {
  import opened Prelude
  import opened ExamApi
  import opened Timetable
  import opened Webhook
  import opened Policy
  import opened Objects
  import opened Store
  import opened Oracle
  import opened Pass
  import opened System
  import opened Lifecycle
  import opened Alignment
  import opened Identity
  import opened Footprint
  import opened Interference
  import opened Tidiness
  import opened Gate
  import opened Recovery

  /** Two entries, of students or of spares, are recorded with one slug. */
  ghost predicate Shares(st: Status) {
    exists p, q :: 0 <= p < q < |AllSlugs(st)| && AllSlugs(st)[p] == AllSlugs(st)[q] != ""
  }

  /** Where the entry at position `p` of all slugs of `a` is found in those of `b`. */
  function Moved(a: Status, b: Status, p: int): int {
    if p < |a.students| then p else p - |a.students| + |b.students|
  }

  lemma SlugKept(a: Status, b: Status, p: nat)
    requires Frozen(a, b) && p < |AllSlugs(a)| && AllSlugs(a)[p] != ""
    ensures 0 <= Moved(a, b, p) < |AllSlugs(b)| && AllSlugs(b)[Moved(a, b, p)] == AllSlugs(a)[p]
  {
    if p < |a.students| {
      assert SameStudent(a.students[p], b.students[p]);
    } else {
      assert SameSpare(a.spares[p - |a.students|], b.spares[p - |a.students|]);
    }
  }

  lemma SharedForGood(a: Status, b: Status)
    requires Shares(a) && Frozen(a, b)
    ensures Shares(b)
  {
    hide AllSlugs, Frozen;
    var p, q :| 0 <= p < q < |AllSlugs(a)| && AllSlugs(a)[p] == AllSlugs(a)[q] != "";
    SlugKept(a, b, p);
    SlugKept(a, b, q);
    FrozenGrows(a, b);
  }

  lemma FrozenGrows(a: Status, b: Status)
    requires Frozen(a, b)
    ensures |a.students| <= |b.students|
  {
  }

  lemma SharedNotDistinct(st: Status)
    requires Shares(st)
    ensures !NoDup(AllSlugs(st))
  {
  }

  lemma SameListsShare(a: Status, b: Status)
    requires a.students == b.students && a.spares == b.spares
    ensures Shares(a) <==> Shares(b)
  {
    assert AllSlugs(a) == AllSlugs(b);
  }

  lemma StudentSpareShare(st: Status, a: nat, b: nat)
    requires a < |st.students| && b < |st.spares| && st.students[a].slug == st.spares[b].slug != ""
    ensures Shares(st)
  {
    assert AllSlugs(st)[a] == AllSlugs(st)[|st.students| + b];
  }

  lemma SharedPassStuck(m: Machine, s: State, env: Env)
    requires env.Valid() && LinedUp(m, s) && Tidy(m.x, m.ns, s.c.store) && s.spec.spares >= 0
    requires Rank(s.c.status.phase) < 2 && DeploymentCleanupSucceeds(env)
    ensures Shares(Reconcile(JobOf(m, s, env), s.c).c.status) ==> Reconcile(JobOf(m, s, env), s.c).c.status.phase != Ready
  {
    hide Reconcile, Made, Shares, Owned, AllSlugs, GoodLists;
    var o := Reconcile(JobOf(m, s, env), s.c).c;
    if o.status.phase == Ready {
      EnteringReady(m, s, env);
      if Shares(o.status) {
        SharedNotDistinct(o.status);
        assert false;
      }
    }
  }

  /** An exam that shares a slug does not become Ready in any run whose clean-ups of deployments succeed. */
  lemma {:induction false} SharedRunStuck(m: Machine, s: State, steps: seq<Step>)
    requires OnTime(s) && LinedUp(m, s) && Tidy(m.x, m.ns, s.c.store) && Shares(s.c.status) && Rank(s.c.status.phase) < 2
    requires Legal(m, s, steps)
    requires forall i :: 0 <= i < |steps| && steps[i].Reconciled? ==> DeploymentCleanupSucceeds(steps[i].env)
    ensures Rank(Run(m, s, steps).c.status.phase) < 2
    decreases |steps|
  {
    hide Reconcile, Shares, LinedUp, Tidy, LockTime, ValidateUpdate;
    if steps != [] {
      var t := Apply(m, s, steps[0]);
      StepLinedUp(m, s, steps[0]);
      StepTidy(m, s, steps[0]);
      StepOnTime(m, s, steps[0]);
      StepPhase(m, s, steps[0]);
      SharedForGood(s.c.status, t.c.status);
      if steps[0].Reconciled? {
        SharedPassStuck(m, s, steps[0].env);
        if steps[0].saved {
          PassPhase(JobOf(m, s, steps[0].env), s.c);
        }
      }
      SharedRunStuck(m, t, steps[1..]);
    }
  }

  // Empty ids.

  /** The slug of a student is one generated for a student of the list so far. */
  ghost predicate Generated(j: Job, i: nat, slug: string) {
    exists p :: 0 <= p < i && j.env.slug(StudentAt(p)) == Some(slug)
  }

  /** The deployment is that of a recorded student, under a generated slug. */
  ghost predicate RecordedDeployment(j: Job, st: Status, i: nat, k: Key) {
    k.name.Plain? && Generated(j, i, k.name.text) && exists q :: 0 <= q < |st.students| && st.students[q].slug == k.name.text
  }

  /** The deployment is there and is labelled with no student. */
  predicate Nobodys(j: Job, s: Cluster, slug: string) {
    DeploymentKey(j.ns, slug) in s && !HasLabel(s, DeploymentKey(j.ns, slug), LabelStudent)
  }

  /** How far the student loop is, from an empty namespace. */
  ghost predicate SoFar(j: Job, c: Ctx, i: nat)
    requires i <= |j.spec.students|
  {
    && |c.status.students| == i && c.status.spares == [] && Tidy(j.x, j.ns, c.store)
    && (forall q :: 0 <= q < i ==> Generated(j, i, c.status.students[q].slug) && c.status.students[q].id == j.spec.students[q].id)
    && (forall k: Key :: k in c.store && k.namespace == j.ns && k.kind == DeploymentKind ==> RecordedDeployment(j, c.status, i, k))
    && (forall q :: 0 <= q < i && j.spec.students[q].id == "" ==> Nobodys(j, c.store, c.status.students[q].slug))
  }

  /** No deployment is labelled with the empty id, so none is found by it. */
  lemma EmptyIDFindsNothing(j: Job, s: Cluster)
    requires Tidy(j.x, j.ns, s)
    ensures StudentDeployments(j, s, "") == {}
  {
    hide OwnerLabels, Made;
    assert LabelStudent in StudentSelector(j.x, "");
    forall k | k in s && k.namespace == j.ns && k.kind == DeploymentKind ensures !Selects(StudentSelector(j.x, ""), s[k].labels) {
      assert Made(j.x, k, s[k]);
      LabelledOrNot(j.x, k, s[k]);
    }
  }

  lemma LabelledOrNot(x: Ref, k: Key, o: Object)
    requires Made(x, k, o) && k.kind == DeploymentKind
    ensures LabelStudent in o.labels ==> o.labels[LabelStudent] != ""
  {
    var template :| WellMade(x, template, k, o);
    LabelsStudent(x, LabelValue(o.labels, LabelStudent), SlugOf(k.name));
  }

  lemma FoundIsGenerated(j: Job, c: Ctx, i: nat)
    requires j.env.Valid() && j.env.Calm() && i < |j.spec.students| && SoFar(j, c, i)
    ensures FindStudentSlug(j, c, i).Some? && Generated(j, i + 1, FindStudentSlug(j, c, i).value)
  {
    hide Made, Selects, Nobodys;
    var id := j.spec.students[i].id;
    var mine := StudentDeployments(j, c.store, id);
    var items := j.env.order(Lookup(StudentAt(i)), mine);
    assert Enumerates(items, mine);
    if items != [] {
      assert items[0] in items;
      StudentsAreOwned(j, c.store, id, items[0]);
      OwnedDeployment(j, c.store, items[0]);
      assert RecordedDeployment(j, c.status, i, items[0]);
    }
    var slug := FindStudentSlug(j, c, i).value;
    if !Generated(j, i, slug) {
      assert j.env.slug(StudentAt(i)) == Some(slug);
    } else {
      var p :| 0 <= p < i && j.env.slug(StudentAt(p)) == Some(slug);
    }
  }

  lemma OthersDiffer(j: Job, i: nat, slug: string)
    requires FreshSlugs(j, map[]) && j.env.slug(StudentAt(i)) == Some(slug)
    ensures !Generated(j, i, slug)
  {
    forall p | 0 <= p < i ensures j.env.slug(StudentAt(p)) != Some(slug) {
      assert StudentAt(p) != StudentAt(i);
    }
  }

  /** A student without id gets the slug of an earlier one without id, or a fresh one. */
  lemma EmptyIDFound(j: Job, c: Ctx, i: nat)
    requires j.env.Valid() && j.env.Calm() && i < |j.spec.students| && SoFar(j, c, i) && j.spec.students[i].id == ""
    requires FreshSlugs(j, map[])
    ensures var slug := FindStudentSlug(j, c, i).value;
            Nobodys(j, c.store, slug) || DeploymentKey(j.ns, slug) !in c.store
  {
    hide Made, Tidy, Nobodys;
    EmptyIDFindsNothing(j, c.store);
    assert Enumerates(j.env.order(Lookup(StudentAt(i)), {}), {});
    EnumerationSize(j.env.order(Lookup(StudentAt(i)), {}), {});
    var slug := FindStudentSlug(j, c, i).value;
    var known := FirstSlug(c.status.students, "");
    if known.None? {
      assert j.env.slug(StudentAt(i)) == Some(slug);
      if DeploymentKey(j.ns, slug) in c.store {
        assert RecordedDeployment(j, c.status, i, DeploymentKey(j.ns, slug));
        OthersDiffer(j, i, slug);
        assert false;
      }
    } else {
      var q :| 0 <= q < |c.status.students| && c.status.students[q].id == "" && c.status.students[q].slug == slug;
      assert Nobodys(j, c.store, c.status.students[q].slug);
    }
  }

  lemma NobodysMade(j: Job, s: Cluster, who: Who, slug: string)
    requires j.env.Calm() && (Nobodys(j, s, slug) || DeploymentKey(j.ns, slug) !in s)
    ensures Nobodys(j, ProvisionInstance(j, s, who, "", slug).store, slug)
  {
    hide ProvisionInstance, Labels;
    CalmInstance(j, s, who, "", slug);
    DeploymentIsInstanceKey(j.ns, slug);
    LabelsStudent(j.x, "", slug);
    assert SlugOf(DeploymentKey(j.ns, slug).name) == slug;
  }

  lemma SoFarStep(j: Job, c: Ctx, i: nat)
    requires j.env.Valid() && j.env.Calm() && FreshSlugs(j, map[]) && i < |j.spec.students| && SoFar(j, c, i)
    ensures FindStudentSlug(j, c, i).Some?
    ensures SoFar(j, ProvisionStudent(j, c, i, FindStudentSlug(j, c, i).value), i + 1)
  {
    hide FindStudentSlug, ProvisionInstance, Labels, Tidy, InstanceURL, Changes, FreshSlugs, Generated, Nobodys;
    FoundIsGenerated(j, c, i);
    var slug := FindStudentSlug(j, c, i).value;
    var id := j.spec.students[i].id;
    var d := ProvisionStudent(j, c, i, slug);
    StudentSlugNotEmpty(j, c, i);
    CalmInstance(j, c.store, StudentAt(i), id, slug);
    InstanceChanges(j, c.store, StudentAt(i), id, slug);
    ChangesTidy(j.x, j.ns, j.spec.template, false, c.store, d.store);
    if id == "" {
      EmptyIDFound(j, c, i);
      NobodysMade(j, c.store, StudentAt(i), slug);
    }
    assert d.status.students[i].slug == slug;
    forall q | 0 <= q < i + 1 ensures Generated(j, i + 1, d.status.students[q].slug) {
      if q < i { MoreGenerated(j, i, d.status.students[q].slug); }
    }
    forall k: Key | k in d.store && k.namespace == j.ns && k.kind == DeploymentKind
      ensures RecordedDeployment(j, d.status, i + 1, k)
    {
      if k in c.store {
        assert RecordedDeployment(j, c.status, i, k);
        MoreGenerated(j, i, k.name.text);
        var q :| 0 <= q < |c.status.students| && c.status.students[q].slug == k.name.text;
        assert d.status.students[q].slug == k.name.text;
      } else {
        assert InstanceKey(j.ns, k) && SlugOf(k.name) == slug;
      }
    }
    forall q | 0 <= q < i + 1 && j.spec.students[q].id == "" ensures Nobodys(j, d.store, d.status.students[q].slug) {
      if q < i { KeptNobodys(j, c.store, d.store, d.status.students[q].slug); }
    }
  }

  lemma MoreGenerated(j: Job, i: nat, slug: string)
    requires Generated(j, i, slug)
    ensures Generated(j, i + 1, slug)
  {
    var p :| 0 <= p < i && j.env.slug(StudentAt(p)) == Some(slug);
  }

  lemma KeptNobodys(j: Job, s: Cluster, t: Cluster, slug: string)
    requires Nobodys(j, s, slug) && forall k :: k in s ==> k in t && t[k] == s[k]
    ensures Nobodys(j, t, slug)
  {
  }

  lemma {:induction false} LoopSoFar(j: Job, c: Ctx, i: nat, healthy: bool)
    requires j.env.Valid() && j.env.Calm() && FreshSlugs(j, map[]) && i <= |j.spec.students| && SoFar(j, c, i)
    ensures var r := ProvisionStudents(j, c, i, healthy); !r.err && SoFar(j, r.c, |j.spec.students|)
    decreases |j.spec.students| - i
  {
    hide FindStudentSlug, ProvisionInstance, ProvisionStudent, SoFar, FreshSlugs;
    if i < |j.spec.students| {
      SoFarStep(j, c, i);
      var slug := FindStudentSlug(j, c, i).value;
      var ok := !ProvisionInstance(j, c.store, StudentAt(i), j.spec.students[i].id, slug).err;
      LoopSoFar(j, ProvisionStudent(j, c, i, slug), i + 1, healthy && ok);
    }
  }

  lemma OwnedAndLabelled(x: Ref, k: Key, o: Object)
    requires Made(x, k, o) && k.kind == DeploymentKind
    ensures Selects(OwnerLabels(x), o.labels) && LabelValue(o.labels, LabelSlug) == SlugOf(k.name)
  {
    var template :| WellMade(x, template, k, o);
    WellMadeMapsBack(x, template, k, o);
  }

  lemma NobodysIsSpare(j: Job, s: Cluster, slug: string)
    requires Tidy(j.x, j.ns, s) && Nobodys(j, s, slug) && slug != ""
    ensures slug in SpareSet(j, s)
  {
    hide OwnerLabels, Labels, Selects, Made;
    var k := DeploymentKey(j.ns, slug);
    assert Made(j.x, k, s[k]);
    OwnedAndLabelled(j.x, k, s[k]);
    assert k in Owned(j, s, DeploymentKind) && IsSpare(s, k) && Label(s, k, LabelSlug) == slug;
  }

  /** The first spare is taken for one of the students whose deployment names no student. */
  lemma SpareTakesStudents(j: Job, c: Ctx, i: nat)
    requires j.env.Valid() && j.env.Calm() && SoFar(j, c, |j.spec.students|)
    requires i < |j.spec.students| && j.spec.students[i].id == ""
    ensures var r := FindSpareSlug(j, c, 0);
            r.Some? && exists a :: 0 <= a < |c.status.students| && c.status.students[a].slug == r.value
  {
    hide Tidy, SpareSet, LeftoverSpareSlugs, Nobodys;
    var n := |j.spec.students|;
    var slug := c.status.students[i].slug;
    assert slug != "" by {
      var p :| 0 <= p < n && j.env.slug(StudentAt(p)) == Some(slug);
    }
    NobodysIsSpare(j, c.store, slug);
    SameSparesSameList(j, c.store, c.store, 0);
    var leftovers := LeftoverSpareSlugs(j, c.store, 0);
    assert slug in leftovers;
    assert leftovers[0] in leftovers;
    LeftoverSpare(j, c.store, leftovers[0]);
    assert RecordedDeployment(j, c.status, n, DeploymentKey(j.ns, leftovers[0]));
  }

  lemma LoopsShare(j: Job, c: Ctx, i: nat)
    requires j.env.Valid() && j.env.Calm() && FreshSlugs(j, map[]) && j.spec.spares >= 1
    requires c.status.students == [] && c.status.spares == []
    requires Tidy(j.x, j.ns, c.store) && forall k :: k in c.store ==> k.namespace != j.ns
    requires i < |j.spec.students| && j.spec.students[i].id == ""
    ensures var students := ProvisionStudents(j, c, 0, true);
            var spares := ProvisionSpares(j, students.c, 0, students.healthy);
            !students.err && Shares(spares.c.status)
  {
    hide ProvisionStudents, FindSpareSlug, ProvisionInstance, SoFar, FreshSlugs, InstanceURL, Tidy, GoodStudent, GoodSpare;
    assert SoFar(j, c, 0) by { StartsSoFar(j, c); }
    LoopSoFar(j, c, 0, true);
    ProvisionStudentsAligned(j, c, 0, true);
    var students := ProvisionStudents(j, c, 0, true);
    var d := students.c;
    SpareTakesStudents(j, d, i);
    SpareSlugNotEmpty(j, d, 0);
    assert d.status.spares == [];
    var slug := FindSpareSlug(j, d, 0).value;
    CalmInstance(j, d.store, SpareAt(0), "", slug);
    var e := ProvisionSpare(j, d, 0, slug);
    var ok := !ProvisionInstance(j, d.store, SpareAt(0), "", slug).err;
    var spares := ProvisionSpares(j, e, 1, students.healthy && ok);
    assert ProvisionSpares(j, d, 0, students.healthy) == spares;
    SpareListsGood(j, d, e, slug);
    ProvisionSparesAligned(j, e, 1, students.healthy && ok);
    var a :| 0 <= a < |d.status.students| && d.status.students[a].slug == slug;
    StudentSpareShare(e.status, a, 0);
    SharedForGood(e.status, spares.c.status);
  }

  lemma StartsSoFar(j: Job, c: Ctx)
    requires c.status.students == [] && c.status.spares == []
    requires Tidy(j.x, j.ns, c.store) && forall k :: k in c.store ==> k.namespace != j.ns
    ensures SoFar(j, c, 0)
  {
  }

  lemma SpareListsGood(j: Job, d: Ctx, e: Ctx, slug: string)
    requires GoodLists(j.platform.domain, j.spec, d.status) && d.status.spares == [] && j.spec.spares >= 1 && slug != ""
    requires e.status == d.status.(spares := [SpareEntry(j, slug, InstancePhase.Provisioned)])
    ensures GoodLists(j.platform.domain, j.spec, e.status)
  {
  }

  /** The webhook accepts an empty id, but with spares such an exam shares a slug after its first clean
      pass, and is not Ready in any later state as long as clean-ups of deployments succeed. */
  lemma EmptyIDStuck(m: Machine, s: State, env: Env, i: nat, steps: seq<Step>)
    requires m.ns != "" && Initial(m, s) && ComputeSchedule(s.spec).provision <= s.clock
    requires env.Valid() && env.Calm() && FreshSlugs(JobOf(m, s, env), map[])
    requires i < |s.spec.students| && s.spec.students[i].id == "" && s.spec.spares >= 1
    requires Legal(m, AfterPass(m, s, env, true), steps)
    requires forall i :: 0 <= i < |steps| && steps[i].Reconciled? ==> DeploymentCleanupSucceeds(steps[i].env)
    ensures Shares(AfterPass(m, s, env, true).c.status)
    ensures Rank(Run(m, AfterPass(m, s, env, true), steps).c.status.phase) < 2
  {
    hide Reconcile, ReconcileProvisioning, FreshSlugs, Shares, LockTime, Run, Legal, ComputeSchedule, GoodLists, Begin;
    var j := JobOf(m, s, env);
    var t := AfterPass(m, s, env, true);
    StartsProvisioning(j, s.c);
    ProvisioningShares(j, Begin(j, s.c), i);
    FinishKeepsLists(j, ReconcileProvisioning(j, Begin(j, s.c)).c);
    InitialLinedUp(m, s);
    assert Tidy(m.x, m.ns, s.c.store);
    SharedPassStuck(m, s, env);
    StepLinedUp(m, s, Reconciled(env, true));
    StepTidy(m, s, Reconciled(env, true));
    StepOnTime(m, s, Reconciled(env, true));
    PassPhase(j, s.c);
    SharedRunStuck(m, t, steps);
  }

  lemma FinishKeepsLists(j: Job, c: Ctx)
    ensures Shares(c.status) ==> Shares(Finish(j, c).status)
  {
    hide Summarize;
    SameListsShare(c.status, Finish(j, c).status);
  }

  lemma ProvisioningShares(j: Job, c: Ctx, i: nat)
    requires j.ns != "" && j.env.Valid() && j.env.Calm() && FreshSlugs(j, map[]) && j.spec.spares >= 1
    requires c.status.students == [] && c.status.spares == []
    requires forall k :: k in c.store ==> k.namespace != j.ns
    requires i < |j.spec.students| && j.spec.students[i].id == ""
    ensures Shares(ReconcileProvisioning(j, c).c.status)
  {
    hide ProvisionStudents, ProvisionSpares, Cleanup, AllInstancesHealthy, ValidSlugs, FreshSlugs, NamespaceObject, SpareURLsOf;
    var made := Create(c.store, NamespaceKey(j.ns), NamespaceObject(j.x), j.env.fault(NamespaceCreate));
    var c0 := c.(store := made.store);
    LoopsShare(j, c0, i);
    var students := ProvisionStudents(j, c0, 0, true);
    var spares := ProvisionSpares(j, students.c, 0, students.healthy);
    SameListsShare(spares.c.status, ReconcileProvisioning(j, c).c.status);
  }
}
