/** A provisioning pass deletes nothing that belongs to a recorded instance. */
module Deletion {
  import opened ExamApi
  import opened Policy
  import opened Objects
  import opened Store
  import opened Oracle
  import opened Pass
  import opened Wakeup
  import opened Gate
  import opened Attribution

  ghost predicate Grows(s: Cluster, t: Cluster) {
    forall k :: k in s ==> k in t && t[k] == s[k]
  }

  lemma {:induction false} StudentsGrow(j: Job, c: Ctx, i: nat, healthy: bool)
    requires i <= |j.spec.students|
    ensures Grows(c.store, ProvisionStudents(j, c, i, healthy).c.store)
    decreases |j.spec.students| - i
  {
    hide ProvisionInstance, FindStudentSlug;
    if i < |j.spec.students| && FindStudentSlug(j, c, i).Some? {
      var slug := FindStudentSlug(j, c, i).value;
      InstanceAdds(j, c.store, StudentAt(i), j.spec.students[i].id, slug);
      var ok := !ProvisionInstance(j, c.store, StudentAt(i), j.spec.students[i].id, slug).err;
      StudentsGrow(j, ProvisionStudent(j, c, i, slug), i + 1, healthy && ok);
    }
  }

  lemma {:induction false} SparesGrow(j: Job, c: Ctx, i: nat, healthy: bool)
    ensures Grows(c.store, ProvisionSpares(j, c, i, healthy).c.store)
    decreases j.spec.spares - i
  {
    hide ProvisionInstance, FindSpareSlug;
    if i < j.spec.spares && FindSpareSlug(j, c, i).Some? {
      var slug := FindSpareSlug(j, c, i).value;
      InstanceAdds(j, c.store, SpareAt(i), "", slug);
      var ok := !ProvisionInstance(j, c.store, SpareAt(i), "", slug).err;
      SparesGrow(j, ProvisionSpare(j, c, i, slug), i + 1, healthy && ok);
    }
  }

  /** The clean-up deletes only deployments, services and policies whose slug is set and not valid. */
  lemma CleanupOnlyOrphans(j: Job, s: Cluster, valid: set<string>, k: Key)
    requires j.env.Valid() && k in s && k !in Cleanup(j, s, valid).store
    ensures Label(s, k, LabelSlug) != "" && Label(s, k, LabelSlug) !in valid && k.kind in {DeploymentKind, ServiceKind, PolicyKind}
  {
    hide CleanupKind;
    var deployments := CleanupKind(j, s, valid, DeploymentKind);
    CleanupKindShrinks(j, s, valid, DeploymentKind);
    if !deployments.err {
      var services := CleanupKind(j, deployments.store, valid, ServiceKind);
      CleanupKindShrinks(j, deployments.store, valid, ServiceKind);
      CleanupKindShrinks(j, services.store, valid, PolicyKind);
    }
  }

  lemma ProvisioningDeletes(j: Job, c: Ctx, k: Key)
    requires j.env.Valid() && k in c.store && k !in ReconcileProvisioning(j, c).c.store
    ensures Label(c.store, k, LabelSlug) != "" && Label(c.store, k, LabelSlug) !in AllSlugs(ReconcileProvisioning(j, c).c.status)
    ensures k.kind in {DeploymentKind, ServiceKind, PolicyKind}
  {
    hide ProvisionStudents, ProvisionSpares, Cleanup, AllInstancesHealthy, NamespaceObject, ValidSlugs, SpareURLsOf, AllSlugs;
    var made := Create(c.store, NamespaceKey(j.ns), NamespaceObject(j.x), j.env.fault(NamespaceCreate));
    var c0 := c.(store := made.store);
    var students := ProvisionStudents(j, c0, 0, true);
    var spares := ProvisionSpares(j, students.c, 0, students.healthy);
    StudentsGrow(j, c0, 0, true);
    SparesGrow(j, students.c, 0, students.healthy);
    var d := spares.c;
    var marked := if spares.healthy then d.status else AddCondition(d.status, ProvisioningDegraded);
    var o := ReconcileProvisioning(j, c).c.status;
    CleanupOnlyOrphans(j, d.store, ValidSlugs(marked), k);
    ValidAmongAll(marked);
    assert AllSlugs(o) == AllSlugs(marked) by { SameSlugs(o, marked); }
  }

  lemma SameSlugs(a: Status, b: Status)
    requires a.students == b.students && a.spares == b.spares
    ensures AllSlugs(a) == AllSlugs(b)
  {
  }

  /** Whatever a pass that works in Provisioning deletes is a deployment, service or policy with a slug that
      it leaves unrecorded. */
  lemma PassDeletesOnlyOrphans(j: Job, c: Ctx, k: Key)
    requires j.env.Valid() && Begin(j, c).status.phase == Phase.Provisioning
    requires k in c.store && k !in Reconcile(j, c).c.store
    ensures Label(c.store, k, LabelSlug) != "" && Label(c.store, k, LabelSlug) !in AllSlugs(Reconcile(j, c).c.status)
    ensures k.kind in {DeploymentKind, ServiceKind, PolicyKind}
  {
    hide ReconcileProvisioning, AllSlugs;
    var b := Begin(j, c);
    BeginPlaces(j, c);
    ProvisioningDeletes(j, b, k);
    SameSlugs(ReconcileProvisioning(j, b).c.status, Reconcile(j, c).c.status);
  }
}
