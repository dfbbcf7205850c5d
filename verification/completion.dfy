/** When a clean pass completes what earlier passes recorded in part, and when it strands the exam. */
module Completion {
  import opened Prelude
  import opened ExamApi
  import opened Timetable
  import opened Policy
  import opened Objects
  import opened Store
  import opened Oracle
  import opened Pass
  import opened System
  import opened Lifecycle
  import opened Alignment
  import opened Identity
  import opened Footprint
  import opened Interference
  import opened Tidiness
  import opened Gate
  import opened Recovery
  import opened Sharing
  import opened Taking

  // The loops fill and deploy every entry.

  /** Every entry up to `i` has a slug and a deployment. */
  ghost predicate StudentsFilled(j: Job, c: Ctx, i: nat) {
    i <= |c.status.students| <= |j.spec.students|
    && forall a :: 0 <= a < i ==> c.status.students[a].slug != "" && HasDeployment(j, c.store, c.status.students[a].slug)
  }

  ghost predicate Kept(s: Cluster, t: Cluster) {
    forall k :: k in s ==> k in t && t[k] == s[k]
  }

  lemma {:induction false} StudentsFill(j: Job, c: Ctx, i: nat, healthy: bool)
    requires j.env.Valid() && j.env.Calm() && i <= |j.spec.students| && StudentsFilled(j, c, i)
    ensures var r := ProvisionStudents(j, c, i, healthy);
            && !r.err && |r.c.status.students| == |j.spec.students| && StudentsFilled(j, r.c, |j.spec.students|)
            && Kept(c.store, r.c.store)
    decreases |j.spec.students| - i
  {
    hide FindStudentSlug, ProvisionInstance, InstanceURL;
    if i < |j.spec.students| {
      assert FindStudentSlug(j, c, i).Some? by { hide *; CalmStudentFound(j, c, i); }
      StudentSlugNotEmpty(j, c, i);
      var slug := FindStudentSlug(j, c, i).value;
      CalmInstance(j, c.store, StudentAt(i), j.spec.students[i].id, slug);
      DeploymentIsInstanceKey(j.ns, slug);
      assert SlugOf(DeploymentKey(j.ns, slug).name) == slug;
      var ok := !ProvisionInstance(j, c.store, StudentAt(i), j.spec.students[i].id, slug).err;
      StudentsFill(j, ProvisionStudent(j, c, i, slug), i + 1, healthy && ok);
    }
  }

  lemma CalmStudentFound(j: Job, c: Ctx, i: nat)
    requires j.env.Calm() && i < |j.spec.students|
    ensures FindStudentSlug(j, c, i).Some?
  {
    hide LeftoverStudentSlug;
  }

  lemma CalmSpareFound(j: Job, c: Ctx, i: nat)
    requires j.env.Calm()
    ensures FindSpareSlug(j, c, i).Some?
  {
    hide LeftoverSpareSlugs;
  }

  lemma {:induction false} SparesFill(j: Job, c: Ctx, i: nat, healthy: bool)
    requires j.env.Valid() && j.env.Calm() && i <= j.spec.spares && FilledTo(j, c, i) && |c.status.spares| <= j.spec.spares
    ensures var r := ProvisionSpares(j, c, i, healthy);
            && !r.err && |r.c.status.spares| == j.spec.spares && FilledTo(j, r.c, j.spec.spares)
            && Kept(c.store, r.c.store) && r.c.status.students == c.status.students
    decreases j.spec.spares - i
  {
    hide FindSpareSlug, ProvisionInstance, InstanceURL;
    if i < j.spec.spares {
      assert FindSpareSlug(j, c, i).Some? by { hide *; CalmSpareFound(j, c, i); }
      SpareSlugNotEmpty(j, c, i);
      var slug := FindSpareSlug(j, c, i).value;
      CalmInstance(j, c.store, SpareAt(i), "", slug);
      DeploymentIsInstanceKey(j.ns, slug);
      assert SlugOf(DeploymentKey(j.ns, slug).name) == slug;
      var ok := !ProvisionInstance(j, c.store, SpareAt(i), "", slug).err;
      SparesFill(j, ProvisionSpare(j, c, i, slug), i + 1, healthy && ok);
    }
  }

  /** No slug is missing, and each has its deployment. */
  ghost predicate Complete(j: Job, c: Ctx) {
    && |c.status.students| == |j.spec.students| && |c.status.spares| == j.spec.spares
    && forall slug :: slug in AllSlugs(c.status) ==> slug != "" && HasDeployment(j, c.store, slug)
  }

  lemma FilledIsComplete(j: Job, c: Ctx)
    requires StudentsFilled(j, c, |j.spec.students|) && |c.status.students| == |j.spec.students|
    requires j.spec.spares >= 0 && |c.status.spares| == j.spec.spares && FilledTo(j, c, j.spec.spares)
    ensures Complete(j, c)
  {
    var all, n := AllSlugs(c.status), |c.status.students|;
    forall slug | slug in all ensures slug != "" && HasDeployment(j, c.store, slug) {
      var e :| 0 <= e < |all| && all[e] == slug;
      if e < n {
        assert slug == c.status.students[e].slug;
      } else {
        assert slug == c.status.spares[e - n].slug;
      }
    }
  }

  lemma KeptFilled(j: Job, c: Ctx, d: Ctx)
    requires StudentsFilled(j, c, |j.spec.students|) && Kept(c.store, d.store) && d.status.students == c.status.students
    ensures StudentsFilled(j, d, |j.spec.students|)
  {
  }

  lemma DistinctIffNotShared(st: Status)
    requires "" !in AllSlugs(st)
    ensures NoDup(AllSlugs(st)) <==> !Shares(st)
  {
  }

  /** The clean-up leaves the deployments of recorded slugs. */
  lemma CleanupKeeps(j: Job, s: Cluster, valid: set<string>, k: Key)
    requires j.env.Valid() && k in s && k.kind == DeploymentKind && Label(s, k, LabelSlug) in valid
    ensures k in Cleanup(j, s, valid).store
  {
    hide CleanupKind, Selected;
    var deployments := CleanupKind(j, s, valid, DeploymentKind);
    CleanupKindShrinks(j, s, valid, DeploymentKind);
    if !deployments.err {
      var services := CleanupKind(j, deployments.store, valid, ServiceKind);
      CleanupKindShrinks(j, deployments.store, valid, ServiceKind);
      CleanupKindShrinks(j, services.store, valid, PolicyKind);
      OwnedIsLocal(j, deployments.store, k, ServiceKind);
      OwnedIsLocal(j, services.store, k, PolicyKind);
    }
  }

  lemma DeploymentLabelled(j: Job, s: Cluster, slug: string)
    requires Tidy(j.x, j.ns, s) && HasDeployment(j, s, slug)
    ensures Label(s, DeploymentKey(j.ns, slug), LabelSlug) == slug && DeploymentKey(j.ns, slug) in Owned(j, s, DeploymentKind)
  {
    hide OwnerLabels, Labels, Selects, Made;
    var k := DeploymentKey(j.ns, slug);
    assert Made(j.x, k, s[k]);
    OwnedAndLabelled(j.x, k, s[k]);
  }

  lemma OwnedAfterCleanup(j: Job, c: Ctx)
    requires j.env.Valid() && j.env.Calm() && Tidy(j.x, j.ns, c.store) && Complete(j, c)
    ensures var t := Cleanup(j, c.store, ValidSlugs(c.status)).store;
            && Tidy(j.x, j.ns, t)
            && Owned(j, t, DeploymentKind) == set slug | slug in Elements(AllSlugs(c.status)) :: DeploymentKey(j.ns, slug)
  {
    hide Cleanup, ValidSlugs, Made, AllSlugs, Label, Owned, Changes, CleanupKind, Shrinks;
    var valid, all := ValidSlugs(c.status), AllSlugs(c.status);
    var t := Cleanup(j, c.store, valid).store;
    ValidAmongAll(c.status);
    CleanupChanges(j, c.store, valid);
    ChangesTidy(j.x, j.ns, j.spec.template, false, c.store, t);
    DeploymentCleanupDone(j, c.store, valid);
    CleanedOfOrphans(j, c.store, c.status);
    forall k | k in Owned(j, t, DeploymentKind) ensures exists slug :: slug in all && k == DeploymentKey(j.ns, slug) {
      OwnedDeployment(j, t, k);
      assert !Orphan(t, k, valid);
      assert Label(t, k, LabelSlug) in all;
    }
    forall slug | slug in all ensures DeploymentKey(j.ns, slug) in Owned(j, t, DeploymentKind) {
      DeploymentLabelled(j, c.store, slug);
      CleanupKeeps(j, c.store, valid, DeploymentKey(j.ns, slug));
      DeploymentLabelled(j, t, slug);
    }
  }

  lemma GateDecides(j: Job, st: Status, t: Cluster)
    requires j.env.Calm() && |st.students| == |j.spec.students| && |st.spares| == j.spec.spares
    requires Owned(j, t, DeploymentKind) == set slug | slug in Elements(AllSlugs(st)) :: DeploymentKey(j.ns, slug)
    ensures AllInstancesHealthy(j, t) <==>
              NoDup(AllSlugs(st)) && forall slug :: slug in AllSlugs(st) ==> IsReady(t, DeploymentKey(j.ns, slug))
  {
    hide Owned, AllSlugs, IsReady;
    var all := AllSlugs(st);
    KeysAsSlugs(j.ns, Elements(all));
    Pigeonhole(all);
    SlugCount(st);
    if AllInstancesHealthy(j, t) {
      forall slug | slug in all ensures IsReady(t, DeploymentKey(j.ns, slug)) {
        assert slug in Elements(all);
        assert DeploymentKey(j.ns, slug) in Owned(j, t, DeploymentKind);
      }
    }
  }

  // The whole pass.

  /** Some entry that has no slug yet will be given one that is recorded already. */
  ghost predicate Takes(j: Job, st: Status, s: Cluster) {
    StudentTakesFrom(j, st, s, 0) || SpareTakesFrom(j, st, s, 0)
  }

  /** What the loops make of a partly recorded status. */
  lemma LoopsComplete(j: Job, c: Ctx) returns (d: Ctx)
    requires Ordinary(j) && j.spec.spares >= 0 && GoodLists(j.platform.domain, j.spec, c.status) && Tidy(j.x, j.ns, c.store)
    requires FreshLeft(j, c.status, c.store, 0, 0)
    ensures var students := ProvisionStudents(j, c, 0, true);
            var spares := ProvisionSpares(j, students.c, 0, students.healthy);
            !students.err && !spares.err && spares.c == d
    ensures Complete(j, d) && Tidy(j.x, j.ns, d.store) && d.status.phase == c.status.phase
    ensures Shares(d.status) <==> Shares(c.status) || Takes(j, c.status, c.store)
  {
    hide ProvisionStudents, ProvisionSpares, FreshLeft, Shares, Made, Changes, GoodStudent, GoodSpare, StudentTakesFrom,
         SpareTakesFrom, Frozen, Complete, AllSlugs, HasDeployment;
    var students := ProvisionStudents(j, c, 0, true);
    StudentsFill(j, c, 0, true);
    StudentsKeepPhase(j, c, 0, true);
    ProvisionStudentsAligned(j, c, 0, true);
    StudentsContained(j, c, 0, true);
    ChangesTidy(j.x, j.ns, j.spec.template, false, c.store, students.c.store);
    var spares := ProvisionSpares(j, students.c, 0, students.healthy);
    SparesFill(j, students.c, 0, students.healthy);
    SparesKeepPhase(j, students.c, 0, students.healthy);
    ProvisionSparesAligned(j, students.c, 0, students.healthy);
    SparesContained(j, students.c, 0, students.healthy);
    ChangesTidy(j.x, j.ns, j.spec.template, false, students.c.store, spares.c.store);
    d := spares.c;
    assert StudentsFilled(j, d, |j.spec.students|) by { KeptFilled(j, students.c, d); }
    FilledIsComplete(j, d);
    FrozenTransitive(c.status, students.c.status, d.status);
    if Shares(c.status) {
      SharedForGood(c.status, d.status);
    } else {
      StudentsTake(j, c, 0, true);
      if Shares(students.c.status) {
        SharedForGood(students.c.status, d.status);
      } else {
        SparesTake(j, students.c, 0, students.healthy);
      }
    }
  }

  lemma NamespaceUnlisted(j: Job, s: Cluster, t: Cluster)
    requires j.ns != "" && (t == s || t == s[NamespaceKey(j.ns) := NamespaceObject(j.x)])
    ensures SpareSet(j, t) == SpareSet(j, s)
    ensures forall id :: StudentDeployments(j, t, id) == StudentDeployments(j, s, id)
  {
    hide Selects, NamespaceObject;
    assert Owned(j, t, DeploymentKind) == Owned(j, s, DeploymentKind);
    assert forall k :: k in Owned(j, s, DeploymentKind) ==>
      (IsSpare(t, k) <==> IsSpare(s, k)) && Label(t, k, LabelSlug) == Label(s, k, LabelSlug);
  }

  lemma NamespaceSameLeftover(j: Job, s: Cluster, t: Cluster, k: nat)
    requires j.env.Valid() && j.ns != "" && (t == s || t == s[NamespaceKey(j.ns) := NamespaceObject(j.x)]) && k < |j.spec.students|
    ensures LeftoverStudentSlug(j, t, k) == LeftoverStudentSlug(j, s, k)
  {
    hide Selects, NamespaceObject;
    NamespaceUnlisted(j, s, t);
    var mine := StudentDeployments(j, s, j.spec.students[k].id);
    assert StudentDeployments(j, t, j.spec.students[k].id) == mine;
    var items := j.env.order(Lookup(StudentAt(k)), mine);
    assert Enumerates(items, mine);
    if items != [] {
      assert items[0] in items;
      assert items[0] in mine;
    }
  }

  /** The namespace being made plays no part. */
  lemma NamespacePlaysNoPart(j: Job, st: Status, s: Cluster, t: Cluster)
    requires j.env.Valid() && j.ns != "" && (t == s || t == s[NamespaceKey(j.ns) := NamespaceObject(j.x)])
    ensures Tidy(j.x, j.ns, s) ==> Tidy(j.x, j.ns, t)
    ensures FreshLeft(j, st, s, 0, 0) ==> FreshLeft(j, st, t, 0, 0)
    ensures Takes(j, st, t) <==> Takes(j, st, s)
  {
    hide Made, AllSlugs, NamespaceObject, SpareSet, Ascending, LeftoverStudentSlug;
    NamespaceUnlisted(j, s, t);
    forall k | 0 <= k < |j.spec.students| ensures StudentTakesAt(j, st, t, k) <==> StudentTakesAt(j, st, s, k) {
      NamespaceSameLeftover(j, s, t, k);
    }
    forall p | 0 <= p < j.spec.spares ensures SpareTakesAt(j, st, t, p) <==> SpareTakesAt(j, st, s, p) {
      assert Seen(j, st, t, p) == Seen(j, st, s, p);
    }
  }

  /** A clean pass with fresh slugs, over whatever was recorded and left, always fills the lists and deploys
      every entry. Its slugs are all different if and only if none was recorded twice and no entry without
      slug takes a recorded one; and it enters Ready if and only if they are all different and every
      deployment is ready. */
  lemma CleanPassCompletesIff(j: Job, c: Ctx)
    requires Ordinary(j) && j.ns != "" && j.spec.spares >= 0 && c.status.phase == Phase.Provisioning
    requires GoodLists(j.platform.domain, j.spec, c.status) && Tidy(j.x, j.ns, c.store)
    requires FreshLeft(j, c.status, c.store, 0, 0)
    ensures var o := ReconcileProvisioning(j, c);
            && !o.err && Complete(j, o.c)
            && (NoDup(AllSlugs(o.c.status)) <==> !Shares(c.status) && !Takes(j, c.status, c.store))
            && (o.c.status.phase == Ready <==>
                  NoDup(AllSlugs(o.c.status))
                  && forall slug :: slug in AllSlugs(o.c.status) ==> IsReady(o.c.store, DeploymentKey(j.ns, slug)))
  {
    hide ProvisionStudents, ProvisionSpares, Cleanup, Made, FreshLeft, Shares, AllInstancesHealthy, NamespaceObject,
         IsReady, ValidSlugs, AllSlugs, Takes, SpareURLsOf, GoodLists, Owned, Complete;
    var made := Create(c.store, NamespaceKey(j.ns), NamespaceObject(j.x), j.env.fault(NamespaceCreate));
    var c0 := c.(store := made.store);
    NamespacePlaysNoPart(j, c.status, c.store, c0.store);
    var d := LoopsComplete(j, c0);
    SettleCompletes(j, d, ProvisionSpares(j, ProvisionStudents(j, c0, 0, true).c, 0, ProvisionStudents(j, c0, 0, true).healthy).healthy);
  }

  lemma SettleCompletes(j: Job, d: Ctx, healthy: bool)
    requires j.env.Valid() && j.env.Calm() && Tidy(j.x, j.ns, d.store) && Complete(j, d) && d.status.phase == Phase.Provisioning
    ensures var o := Settle(j, d, healthy);
            && !o.err && Complete(j, o.c) && (NoDup(AllSlugs(o.c.status)) <==> !Shares(d.status))
            && (o.c.status.phase == Ready <==>
                  NoDup(AllSlugs(o.c.status))
                  && forall slug :: slug in AllSlugs(o.c.status) ==> IsReady(o.c.store, DeploymentKey(j.ns, slug)))
  {
    hide Cleanup, Made, Shares, AllInstancesHealthy, IsReady, ValidSlugs, AllSlugs, SpareURLsOf, Owned, Complete;
    var marked := if healthy then d else d.(status := AddCondition(d.status, ProvisioningDegraded));
    var o := Settle(j, d, healthy).c;
    SameListsComplete(j, d, marked);
    OwnedAfterCleanup(j, marked);
    var t := Cleanup(j, marked.store, ValidSlugs(marked.status)).store;
    assert o.store == t;
    CompleteAfter(j, marked, t);
    SameListsComplete(j, marked.(store := t), o);
    GateDecides(j, marked.status, t) by { hide *; CompleteSizes(j, marked); }
    DistinctIffNotShared(o.status) by { hide *; CompleteNamed(j, o); }
    SameListsShare(d.status, o.status);
  }

  lemma CompleteSizes(j: Job, c: Ctx)
    requires Complete(j, c)
    ensures |c.status.students| == |j.spec.students| && |c.status.spares| == j.spec.spares
  {
  }

  lemma CompleteNamed(j: Job, c: Ctx)
    requires Complete(j, c)
    ensures "" !in AllSlugs(c.status)
  {
  }

  lemma SameListsComplete(j: Job, c: Ctx, d: Ctx)
    requires d.store == c.store && d.status.students == c.status.students && d.status.spares == c.status.spares
    ensures AllSlugs(c.status) == AllSlugs(d.status) && (Complete(j, c) <==> Complete(j, d))
  {
  }

  lemma CompleteAfter(j: Job, c: Ctx, t: Cluster)
    requires Complete(j, c)
    requires Owned(j, t, DeploymentKind) == set slug | slug in Elements(AllSlugs(c.status)) :: DeploymentKey(j.ns, slug)
    ensures Complete(j, c.(store := t))
  {
    hide AllSlugs;
    forall slug | slug in AllSlugs(c.status) ensures HasDeployment(j, t, slug) {
      assert slug in Elements(AllSlugs(c.status));
      assert DeploymentKey(j.ns, slug) in Owned(j, t, DeploymentKind);
    }
  }

  // In the state an exam has reached.

  lemma ProvisioningStays(j: Job, c: Ctx)
    requires c.status.phase == Phase.Provisioning
    ensures var b := Begin(j, c);
            && b == c.(status := b.status) && b.status.phase == Phase.Provisioning
            && b.status.students == c.status.students && b.status.spares == c.status.spares
            && Reconcile(j, c).c == Finish(j, ReconcileProvisioning(j, b).c)
  {
    hide ComputeSchedule, ReconcileProvisioning, Finish;
  }

  lemma SameListsSameHand(j: Job, a: Status, b: Status, s: Cluster)
    requires a.students == b.students && a.spares == b.spares
    ensures GoodLists(j.platform.domain, j.spec, a) ==> GoodLists(j.platform.domain, j.spec, b)
    ensures FreshLeft(j, a, s, 0, 0) ==> FreshLeft(j, b, s, 0, 0)
    ensures Takes(j, a, s) <==> Takes(j, b, s)
    ensures Shares(a) <==> Shares(b)
  {
    hide LeftoverStudentSlug, Ascending, SpareSet;
    assert AllSlugs(a) == AllSlugs(b);
    forall k | 0 <= k < |j.spec.students| ensures StudentTakesAt(j, a, s, k) <==> StudentTakesAt(j, b, s, k) {
    }
    forall p | 0 <= p < j.spec.spares ensures SpareTakesAt(j, a, s, p) <==> SpareTakesAt(j, b, s, p) {
      assert Seen(j, a, s, p) == Seen(j, b, s, p);
    }
  }

  /** A provisioning exam with distinct ids, as runs reach it. */
  ghost predicate HalfRecorded(m: Machine, s: State) {
    && OnTime(s) && LinedUp(m, s) && Tidy(m.x, m.ns, s.c.store) && DistinctIDs(s.spec)
    && s.c.status.phase == Phase.Provisioning
  }

  lemma ReachableHalfRecorded(m: Machine, s: State, steps: seq<Step>)
    requires Initial(m, s) && Legal(m, s, steps)
    ensures var t := Run(m, s, steps);
            DistinctIDs(t.spec) && t.c.status.phase == Phase.Provisioning ==> HalfRecorded(m, t)
  {
    hide Run, Legal, LockTime, GoodLists, Made;
    InitialLinedUp(m, s);
    RunLinedUp(m, s, steps);
    RunOnTime(m, s, steps);
    RunTidy(m, s, steps);
  }

  /** In any such state a clean pass with fresh slugs ends with a slug recorded twice if and only if one was
      recorded twice before, or an entry without slug takes a recorded one. */
  lemma CleanPassSharesIff(m: Machine, s: State, env: Env)
    requires m.ns != "" && HalfRecorded(m, s) && env.Valid() && env.Calm()
    requires FreshLeft(JobOf(m, s, env), s.c.status, s.c.store, 0, 0)
    ensures Shares(AfterPass(m, s, env, true).c.status) <==>
              Shares(s.c.status) || Takes(JobOf(m, s, env), s.c.status, s.c.store)
  {
    hide Reconcile, ReconcileProvisioning, FreshLeft, Shares, Takes, Summarize, LockTime, Tidy, GoodLists, AllSlugs, Begin,
         Complete, IsReady;
    var j := JobOf(m, s, env);
    var b := Begin(j, s.c);
    ProvisioningStays(j, s.c);
    SameListsSameHand(j, s.c.status, b.status, s.c.store);
    CleanPassCompletesIff(j, b);
    var o := ReconcileProvisioning(j, b).c;
    CompleteNamed(j, o);
    DistinctIffNotShared(o.status);
    SameListsShare(o.status, Finish(j, o).status);
  }

  /** And then it never becomes Ready, in any run whose clean-ups of deployments succeed. */
  lemma TakenSlugStrands(m: Machine, s: State, env: Env, steps: seq<Step>)
    requires m.ns != "" && HalfRecorded(m, s) && env.Valid() && env.Calm()
    requires FreshLeft(JobOf(m, s, env), s.c.status, s.c.store, 0, 0)
    ensures var t := AfterPass(m, s, env, true);
            Takes(JobOf(m, s, env), s.c.status, s.c.store) && Legal(m, t, steps)
            && (forall i :: 0 <= i < |steps| && steps[i].Reconciled? ==> DeploymentCleanupSucceeds(steps[i].env)) ==>
              Rank(Run(m, t, steps).c.status.phase) < 2
  {
    hide Reconcile, FreshLeft, Shares, Takes, LockTime, Tidy, LinedUp, Run, Legal, DeploymentCleanupSucceeds;
    var t := AfterPass(m, s, env, true);
    if Takes(JobOf(m, s, env), s.c.status, s.c.store) && Legal(m, t, steps)
       && (forall i :: 0 <= i < |steps| && steps[i].Reconciled? ==> DeploymentCleanupSucceeds(steps[i].env)) {
      assert DeploymentCleanupSucceeds(env) by { hide *; CalmCleansUp(env); }
      CleanPassSharesIff(m, s, env);
      SharedPassStuck(m, s, env);
      StepLinedUp(m, s, Reconciled(env, true));
      StepTidy(m, s, Reconciled(env, true));
      StepOnTime(m, s, Reconciled(env, true));
      PassPhase(JobOf(m, s, env), s.c);
      SharedRunStuck(m, t, steps);
    }
  }

  lemma CalmCleansUp(env: Env)
    requires env.Calm()
    ensures DeploymentCleanupSucceeds(env)
  {
  }
}
