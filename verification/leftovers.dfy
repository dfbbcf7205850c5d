/** What lost writes can leave behind: every reachable state before Ready is one that recovery handles. */
module Leftovers {
  import opened ExamApi
  import opened Timetable
  import opened Objects
  import opened Store
  import opened Oracle
  import opened Pass
  import opened System
  import opened Lifecycle
  import opened Alignment
  import opened Identity
  import opened Footprint
  import opened Interference
  import opened Tidiness
  import opened Access
  import opened Wakeup
  import opened Gate
  import opened Recovery

  /** No object of the namespace is named after a blank slug. */
  ghost predicate Named(ns: string, s: Cluster) {
    forall k :: k in s && k.namespace == ns ==> SlugOf(k.name) != ""
  }

  lemma {:induction false} CreateAllNamed(ns: string, s: Cluster, todo: seq<Creation>, env: Env)
    requires Named(ns, s) && forall i :: 0 <= i < |todo| ==> SlugOf(todo[i].key.name) != ""
    ensures Named(ns, CreateAll(s, todo, env).store)
    decreases |todo|
  {
    if todo != [] {
      var first := Create(s, todo[0].key, todo[0].value, env.fault(todo[0].site));
      CreateAllNamed(ns, first.store, todo[1..], env);
    }
  }

  lemma InstanceNamed(j: Job, s: Cluster, who: Who, student: string, slug: string)
    requires Named(j.ns, s) && slug != ""
    ensures Named(j.ns, ProvisionInstance(j, s, who, student, slug).store)
  {
    hide Named, CreateAll, Deployment, Service, PolicyObject;
    CreateAllNamed(j.ns, s, InstanceObjects(j, who, student, slug), j.env);
  }

  lemma {:induction false} StudentsNamed(j: Job, c: Ctx, i: nat, healthy: bool)
    requires j.env.Valid() && i <= |j.spec.students| && Named(j.ns, c.store)
    ensures Named(j.ns, ProvisionStudents(j, c, i, healthy).c.store)
    decreases |j.spec.students| - i
  {
    hide ProvisionInstance, FindStudentSlug, Named;
    if i < |j.spec.students| && FindStudentSlug(j, c, i).Some? {
      var slug := FindStudentSlug(j, c, i).value;
      StudentSlugNotEmpty(j, c, i);
      InstanceNamed(j, c.store, StudentAt(i), j.spec.students[i].id, slug);
      var ok := !ProvisionInstance(j, c.store, StudentAt(i), j.spec.students[i].id, slug).err;
      StudentsNamed(j, ProvisionStudent(j, c, i, slug), i + 1, healthy && ok);
    }
  }

  lemma {:induction false} SparesNamed(j: Job, c: Ctx, i: nat, healthy: bool)
    requires j.env.Valid() && Named(j.ns, c.store)
    ensures Named(j.ns, ProvisionSpares(j, c, i, healthy).c.store)
    decreases j.spec.spares - i
  {
    hide ProvisionInstance, FindSpareSlug, Named;
    if i < j.spec.spares && FindSpareSlug(j, c, i).Some? {
      var slug := FindSpareSlug(j, c, i).value;
      SpareSlugNotEmpty(j, c, i);
      InstanceNamed(j, c.store, SpareAt(i), "", slug);
      var ok := !ProvisionInstance(j, c.store, SpareAt(i), "", slug).err;
      SparesNamed(j, ProvisionSpare(j, c, i, slug), i + 1, healthy && ok);
    }
  }

  lemma ShrinkingNamed(ns: string, s: Cluster, t: Cluster)
    requires Named(ns, s) && Shrinks(s, t)
    ensures Named(ns, t)
  {
  }

  lemma SettleNamed(j: Job, c: Ctx, healthy: bool)
    requires j.env.Valid() && Named(j.ns, c.store)
    ensures Named(j.ns, Settle(j, c, healthy).c.store)
  {
    hide Cleanup, AllInstancesHealthy, ValidSlugs, Named, Shrinks, SpareURLsOf;
    var marked := if healthy then c else c.(status := AddCondition(c.status, ProvisioningDegraded));
    CleanupShrinks(j, marked.store, ValidSlugs(marked.status));
    ShrinkingNamed(j.ns, marked.store, Cleanup(j, marked.store, ValidSlugs(marked.status)).store);
  }

  lemma ProvisioningNamed(j: Job, c: Ctx)
    requires j.ns != "" && j.env.Valid() && Named(j.ns, c.store)
    ensures Named(j.ns, ReconcileProvisioning(j, c).c.store)
  {
    hide ProvisionStudents, ProvisionSpares, Settle, NamespaceObject;
    var made := Create(c.store, NamespaceKey(j.ns), NamespaceObject(j.x), j.env.fault(NamespaceCreate));
    var c0 := c.(store := made.store);
    assert Named(j.ns, c0.store);
    StudentsNamed(j, c0, 0, true);
    var students := ProvisionStudents(j, c0, 0, true);
    SparesNamed(j, students.c, 0, students.healthy);
    var spares := ProvisionSpares(j, students.c, 0, students.healthy);
    var d := spares.c;
    SettleNamed(j, d, spares.healthy);
  }

  lemma EarlyPassNamed(j: Job, c: Ctx)
    requires j.ns != "" && j.env.Valid() && Rank(c.status.phase) < 2 && Named(j.ns, c.store)
    ensures Named(j.ns, Reconcile(j, c).c.store)
  {
    hide ReconcileProvisioning, ComputeSchedule, Summarize, Named;
    var b := Begin(j, c);
    BeginPlaces(j, c);
    if b.status.phase == Phase.Provisioning {
      ProvisioningNamed(j, b);
    }
  }

  ghost predicate NamedEarly(m: Machine, s: State) {
    Rank(s.c.status.phase) < 2 ==> Named(m.ns, s.c.store)
  }

  lemma StepNamedEarly(m: Machine, s: State, step: Step)
    requires m.ns != "" && NamedEarly(m, s) && Enabled(m, s, step)
    ensures NamedEarly(m, Apply(m, s, step))
  {
    hide Reconcile;
    StepPhase(m, s, step);
    if step.Reconciled? && Rank(s.c.status.phase) < 2 {
      EarlyPassNamed(JobOf(m, s, step.env), s.c);
    }
  }

  lemma {:induction false} RunNamedEarly(m: Machine, s: State, steps: seq<Step>)
    requires m.ns != "" && NamedEarly(m, s) && Legal(m, s, steps)
    ensures NamedEarly(m, Run(m, s, steps))
    decreases |steps|
  {
    hide Apply, NamedEarly;
    if steps != [] {
      StepNamedEarly(m, s, steps[0]);
      RunNamedEarly(m, Apply(m, s, steps[0]), steps[1..]);
    }
  }

  /** Whatever failed, was lost, drifted or was edited: as long as Ready is not recorded, the namespace
      holds only leftovers that a clean pass can rebuild the exam from. */
  lemma ReachableLeftover(m: Machine, s: State, steps: seq<Step>, env: Env)
    requires m.ns != "" && Initial(m, s) && Legal(m, s, steps)
    ensures var t := Run(m, s, steps);
            Rank(t.c.status.phase) < 2 ==> Leftover(JobOf(m, t, env), t.c.store)
  {
    hide Apply, Run, Made, LockTime, WellMade, Legal;
    InitialLinedUp(m, s);
    assert Gated(m, s);
    RunGated(m, s, steps);
    RunTidy(m, s, steps);
    RunNamedEarly(m, s, steps);
  }

  /** So from any reachable state whose status was never saved, one clean pass restores the exam. */
  lemma ReachableRecovers(m: Machine, s: State, steps: seq<Step>, env: Env)
    requires m.ns != "" && Initial(m, s) && Legal(m, s, steps) && env.Valid() && env.Calm()
    ensures var t := Run(m, s, steps);
            var j := JobOf(m, t, env);
            t.c.status == EmptyStatus && ComputeSchedule(t.spec).provision <= t.clock
            && FreshSlugs(j, t.c.store) && DistinctIDs(t.spec) ==>
              var o := Reconcile(j, t.c);
              && !o.err && Restored(j, t.c.store, o.c)
              && (o.c.status.phase == Ready <==>
                    forall slug :: slug in AllSlugs(o.c.status) ==> IsReady(o.c.store, DeploymentKey(j.ns, slug)))
  {
    hide Run, Legal, Reconcile, Leftover, FreshSlugs, Restored, AllSlugs, IsReady, LockTime, ComputeSchedule;
    var t := Run(m, s, steps);
    if t.c.status == EmptyStatus {
      InitialLinedUp(m, s);
      RunOnTime(m, s, steps);
      ReachableLeftover(m, s, steps, env);
      if ComputeSchedule(t.spec).provision <= t.clock && FreshSlugs(JobOf(m, t, env), t.c.store) && DistinctIDs(t.spec) {
        LostStatusRecovered(JobOf(m, t, env), t.c);
      }
    }
  }
}
