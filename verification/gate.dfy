/** The gate to Ready opens by counting. When is counting enough? */
module Gate {
  import opened Prelude
  import opened ExamApi
  import opened Timetable
  import opened Policy
  import opened Objects
  import opened Store
  import opened Oracle
  import opened Pass
  import opened System
  import opened Lifecycle
  import opened Alignment
  import opened Identity
  import opened Footprint
  import opened Interference
  import opened Tidiness

  /** The recorded slugs, position by position. */
  function AllSlugs(st: Status): seq<string> {
    seq(|st.students|, i requires 0 <= i < |st.students| => st.students[i].slug)
    + seq(|st.spares|, i requires 0 <= i < |st.spares| => st.spares[i].slug)
  }

  /** What Ready is meant to say: one instance per student and per spare, all different, all running. */
  ghost predicate Provisioned(j: Job, st: Status, s: Cluster) {
    && |st.students| == |j.spec.students|
    && |st.spares| == j.spec.spares
    && "" !in AllSlugs(st)
    && NoDup(AllSlugs(st))
    && Owned(j, s, DeploymentKind) == (set slug | slug in AllSlugs(st) :: DeploymentKey(j.ns, slug))
    && forall slug :: slug in AllSlugs(st) ==> IsReady(s, DeploymentKey(j.ns, slug))
  }

  ghost predicate NoOrphans(j: Job, st: Status, s: Cluster) {
    forall k :: k in Owned(j, s, DeploymentKind) ==> !Orphan(s, k, ValidSlugs(st))
  }

  lemma OwnedDeployment(j: Job, s: Cluster, k: Key)
    requires Tidy(j.x, j.ns, s) && k in Owned(j, s, DeploymentKind)
    ensures k == DeploymentKey(j.ns, Label(s, k, LabelSlug)) && Label(s, k, LabelSlug) != ""
  {
    hide Labels, OwnerLabels;
    assert Made(j.x, k, s[k]);
    var template :| WellMade(j.x, template, k, s[k]);
    WellMadeMapsBack(j.x, template, k, s[k]);
  }

  lemma ValidAmongAll(st: Status)
    ensures ValidSlugs(st) == Elements(AllSlugs(st)) - {""}
  {
    var all := AllSlugs(st);
    forall slug ensures slug in ValidSlugs(st) <==> slug in all && slug != "" {
      if slug in ValidSlugs(st) {
        if i :| 0 <= i < |st.students| && st.students[i].slug == slug {
          assert all[i] == slug;
        } else {
          var i :| 0 <= i < |st.spares| && st.spares[i].slug == slug;
          assert all[|st.students| + i] == slug;
        }
      }
    }
  }

  /** As many deployments as slugs: the keys are the slugs, spelled out. */
  lemma {:induction false} KeysAsSlugs(ns: string, slugs: set<string>)
    ensures |set slug | slug in slugs :: DeploymentKey(ns, slug)| == |slugs|
  {
    if slugs != {} {
      var one :| one in slugs;
      KeysAsSlugs(ns, slugs - {one});
      assert (set slug | slug in slugs :: DeploymentKey(ns, slug))
          == (set slug | slug in slugs - {one} :: DeploymentKey(ns, slug)) + {DeploymentKey(ns, one)};
    }
  }

  /** The pigeonhole behind the gate. */
  lemma RoomForAll(running: set<string>, valid: set<string>, all: seq<string>)
    requires running <= valid && valid == Elements(all) - {""} && |all| <= |running|
    ensures |all| == |running| && "" !in all && NoDup(all) && running == Elements(all)
  {
    SubsetCardinality(running, valid);
    SubsetCardinality(valid, Elements(all));
    Pigeonhole(all);
    assert "" !in Elements(all);
  }

  /** The slugs that are running, and the fact that the owned deployments are just those. */
  lemma Running(j: Job, s: Cluster) returns (running: set<string>)
    requires Tidy(j.x, j.ns, s)
    ensures Owned(j, s, DeploymentKind) == set slug | slug in running :: DeploymentKey(j.ns, slug)
    ensures |Owned(j, s, DeploymentKind)| == |running|
    ensures forall slug :: slug in running ==> slug != "" && Label(s, DeploymentKey(j.ns, slug), LabelSlug) == slug
  {
    hide Labels, OwnerLabels, Made, Selected, Label;
    var owned := Owned(j, s, DeploymentKind);
    running := set k | k in owned :: Label(s, k, LabelSlug);
    forall k | k in owned
      ensures k == DeploymentKey(j.ns, Label(s, k, LabelSlug)) && Label(s, k, LabelSlug) != ""
    {
      OwnedDeployment(j, s, k);
    }
    assert owned == set slug | slug in running :: DeploymentKey(j.ns, slug);
    KeysAsSlugs(j.ns, running);
  }

  lemma CountingSuffices(j: Job, st: Status, s: Cluster)
    requires Tidy(j.x, j.ns, s) && |st.students| <= |j.spec.students| && |st.spares| <= j.spec.spares
    requires AllInstancesHealthy(j, s) && NoOrphans(j, st, s)
    ensures Provisioned(j, st, s)
  {
    hide Made, Owned, ValidSlugs, Label, AllSlugs, IsReady;
    var running := Running(j, s);
    var all := AllSlugs(st);
    assert |all| == |st.students| + |st.spares| by { hide *; SlugCount(st); }
    ValidAmongAll(st);
    forall slug | slug in running ensures slug in ValidSlugs(st) {
      assert DeploymentKey(j.ns, slug) in Owned(j, s, DeploymentKind);
    }
    RoomForAll(running, ValidSlugs(st), all);
    forall slug | slug in all ensures IsReady(s, DeploymentKey(j.ns, slug)) {
      assert slug in running;
      assert DeploymentKey(j.ns, slug) in Owned(j, s, DeploymentKind);
    }
    assert Owned(j, s, DeploymentKind) == set slug | slug in all :: DeploymentKey(j.ns, slug);
  }

  lemma SlugCount(st: Status)
    ensures |AllSlugs(st)| == |st.students| + |st.spares|
  {
  }

  /** An open gate means what it should exactly when no deployment carries an unrecorded slug. */
  lemma OpenGateSoundIff(j: Job, st: Status, s: Cluster)
    requires Tidy(j.x, j.ns, s) && |st.students| <= |j.spec.students| && |st.spares| <= j.spec.spares
    requires AllInstancesHealthy(j, s)
    ensures Provisioned(j, st, s) <==> NoOrphans(j, st, s)
  {
    hide Labels, OwnerLabels, Made, Selected, ValidSlugs, AllInstancesHealthy;
    if NoOrphans(j, st, s) {
      CountingSuffices(j, st, s);
    }
    if Provisioned(j, st, s) {
      ValidAmongAll(st);
      forall k | k in Owned(j, s, DeploymentKind) ensures !Orphan(s, k, ValidSlugs(st)) {
        OwnedDeployment(j, s, k);
        var slug :| slug in AllSlugs(st) && k == DeploymentKey(j.ns, slug);
        assert Label(s, k, LabelSlug) == slug;
      }
    }
  }

  // Clean-up.

  ghost predicate Shrinks(s: Cluster, t: Cluster) {
    forall k :: k in t ==> k in s && t[k] == s[k]
  }

  lemma {:induction false} PurgeShrinks(s: Cluster, seen: Cluster, items: seq<Key>, valid: set<string>, env: Env)
    ensures var r := Purge(s, seen, items, valid, env);
            && Shrinks(s, r.store)
            && (!r.err ==> forall k :: k in items && Orphan(seen, k, valid) ==> k !in r.store)
            && (forall k :: k in s && !(k in items && Orphan(seen, k, valid)) ==> k in r.store)
    decreases |items|
  {
    hide Orphan;
    if items != [] {
      var first := Delete(s, items[0], env.fault(CleanupDelete(items[0])));
      PurgeShrinks(first.store, seen, items[1..], valid, env);
      PurgeShrinks(s, seen, items[1..], valid, env);
    }
  }

  lemma CleanupKindShrinks(j: Job, s: Cluster, valid: set<string>, kind: Kind)
    requires j.env.Valid()
    ensures var r := CleanupKind(j, s, valid, kind);
            && Shrinks(s, r.store)
            && (!r.err ==> forall k :: k in Owned(j, s, kind) && Orphan(s, k, valid) ==> k !in r.store)
            && (forall k :: k in s && !(k in Owned(j, s, kind) && Orphan(s, k, valid)) ==> k in r.store)
  {
    hide Orphan, Purge, Selected;
    var items := j.env.order(CleanupList(kind), Owned(j, s, kind));
    assert Enumerates(items, Owned(j, s, kind));
    PurgeShrinks(s, s, items, valid, j.env);
  }

  lemma CleanupShrinks(j: Job, s: Cluster, valid: set<string>)
    requires j.env.Valid()
    ensures Shrinks(s, Cleanup(j, s, valid).store)
    ensures Shrinks(CleanupKind(j, s, valid, DeploymentKind).store, Cleanup(j, s, valid).store)
  {
    hide CleanupKind, Orphan, Selected;
    var deployments := CleanupKind(j, s, valid, DeploymentKind);
    CleanupKindShrinks(j, s, valid, DeploymentKind);
    if !deployments.err {
      var services := CleanupKind(j, deployments.store, valid, ServiceKind);
      CleanupKindShrinks(j, deployments.store, valid, ServiceKind);
      CleanupKindShrinks(j, services.store, valid, PolicyKind);
    }
  }

  lemma CleanedOfOrphans(j: Job, s: Cluster, st: Status)
    requires j.env.Valid() && !CleanupKind(j, s, ValidSlugs(st), DeploymentKind).err
    ensures NoOrphans(j, st, Cleanup(j, s, ValidSlugs(st)).store)
  {
    hide CleanupKind, Cleanup, ValidSlugs;
    var valid := ValidSlugs(st);
    var t := Cleanup(j, s, valid).store;
    CleanupShrinks(j, s, valid);
    CleanupKindShrinks(j, s, valid, DeploymentKind);
    forall k | k in Owned(j, t, DeploymentKind) ensures !Orphan(t, k, valid) {
      assert k in s && s[k] == t[k];
      assert k in Owned(j, s, DeploymentKind);
    }
  }

  /** No call of the deployment clean-up fails; those for services and policies may. */
  ghost predicate DeploymentCleanupSucceeds(env: Env) {
    && env.fault(CleanupList(DeploymentKind)) == NoFault
    && forall k: Key :: k.kind == DeploymentKind ==> env.fault(CleanupDelete(k)) == NoFault
  }

  lemma {:induction false} PurgeSucceeds(s: Cluster, seen: Cluster, items: seq<Key>, valid: set<string>, env: Env)
    requires forall k :: k in items ==> env.fault(CleanupDelete(k)) == NoFault
    ensures !Purge(s, seen, items, valid, env).err
    decreases |items|
  {
    hide Orphan;
    if items != [] {
      PurgeSucceeds(Delete(s, items[0], env.fault(CleanupDelete(items[0]))).store, seen, items[1..], valid, env);
      PurgeSucceeds(s, seen, items[1..], valid, env);
    }
  }

  lemma DeploymentCleanupDone(j: Job, s: Cluster, valid: set<string>)
    requires j.env.Valid() && DeploymentCleanupSucceeds(j.env)
    ensures !CleanupKind(j, s, valid, DeploymentKind).err
  {
    hide Purge;
    var owned := Owned(j, s, DeploymentKind);
    var items := j.env.order(CleanupList(DeploymentKind), owned);
    assert Enumerates(items, owned);
    forall k | k in items ensures k.kind == DeploymentKind {
      assert k in owned;
    }
    PurgeSucceeds(s, s, items, valid, j.env);
  }

  // The gate in a pass.

  /** What a provisioning pass hands to the gate. */
  lemma GateInput(j: Job, c: Ctx) returns (d: Ctx, healthy: bool)
    requires j.env.Valid() && Tidy(j.x, j.ns, c.store) && GoodLists(j.platform.domain, j.spec, c.status)
    requires c.status.phase == Phase.Provisioning && ReconcileProvisioning(j, c).c.status.phase == Ready
    ensures ReconcileProvisioning(j, c) == Settle(j, d, healthy)
    ensures Tidy(j.x, j.ns, d.store) && GoodLists(j.platform.domain, j.spec, d.status)
    ensures d.status.phase == Phase.Provisioning
  {
    hide ProvisionStudents, ProvisionSpares, Settle, GoodStudent, GoodSpare, Made, Changes, NamespaceObject;
    var f := j.env.fault(NamespaceCreate);
    var made := Create(c.store, NamespaceKey(j.ns), NamespaceObject(j.x), f);
    var c0 := c.(store := made.store);
    var students := ProvisionStudents(j, c0, 0, true);
    StudentsKeepPhase(j, c0, 0, true);
    var spares := ProvisionSpares(j, students.c, 0, students.healthy);
    SparesKeepPhase(j, students.c, 0, students.healthy);
    d, healthy := spares.c, spares.healthy;
    CreateChanges(j.x, j.ns, j.spec.template, false, c.store, NamespaceKey(j.ns), NamespaceObject(j.x), f);
    ChangesTidy(j.x, j.ns, j.spec.template, false, c.store, c0.store);
    StudentsContained(j, c0, 0, true);
    ProvisionStudentsAligned(j, c0, 0, true);
    ChangesTidy(j.x, j.ns, j.spec.template, false, c0.store, students.c.store);
    SparesContained(j, students.c, 0, students.healthy);
    ProvisionSparesAligned(j, students.c, 0, students.healthy);
    ChangesTidy(j.x, j.ns, j.spec.template, false, students.c.store, d.store);
  }

  lemma SettleGate(j: Job, d: Ctx, healthy: bool)
    requires j.env.Valid() && Tidy(j.x, j.ns, d.store) && j.spec.spares >= 0
    requires GoodLists(j.platform.domain, j.spec, d.status)
    requires d.status.phase == Phase.Provisioning && Settle(j, d, healthy).c.status.phase == Ready
    ensures var o := Settle(j, d, healthy).c;
            && (Provisioned(j, o.status, o.store) <==> NoOrphans(j, o.status, o.store))
            && (DeploymentCleanupSucceeds(j.env) ==> NoOrphans(j, o.status, o.store))
            && OneSlugPerID(o.status.students) && GoodLists(j.platform.domain, j.spec, o.status)
  {
    hide Cleanup, AllInstancesHealthy, GoodStudent, GoodSpare, Made, Changes, NoOrphans, Provisioned, Purge, Selected;
    var o := Settle(j, d, healthy).c;
    var valid := ValidSlugs(d.status);
    var t := Cleanup(j, d.store, valid).store;
    CleanupChanges(j, d.store, valid);
    ChangesTidy(j.x, j.ns, j.spec.template, false, d.store, t);
    assert AllInstancesHealthy(j, t);
    assert o.store == t && o.status.students == d.status.students && o.status.spares == d.status.spares;
    OpenGateSoundIff(j, o.status, o.store);
    if DeploymentCleanupSucceeds(j.env) {
      DeploymentCleanupDone(j, d.store, valid);
      CleanedOfOrphans(j, d.store, o.status);
    }
  }

  /** At least one of the deployment's pods is ready. */
  predicate Runs(s: Cluster, k: Key) {
    k in s && s[k].body.DeploymentBody? && s[k].body.ready > 0
  }

  lemma ProvisionedRuns(j: Job, st: Status, s: Cluster)
    ensures Provisioned(j, st, s) ==> forall slug :: slug in AllSlugs(st) ==> Runs(s, DeploymentKey(j.ns, slug))
  {
    hide AllSlugs;
    if Provisioned(j, st, s) {
      forall slug | slug in AllSlugs(st) ensures Runs(s, DeploymentKey(j.ns, slug)) {
        assert IsReady(s, DeploymentKey(j.ns, slug));
      }
    }
  }

  /** A pass that enters Ready, from any reachable state and after any failures, leaves one running
      instance per student and spare exactly when it leaves no orphan, and it leaves none when the
      clean-up of deployments went through. */
  lemma EnteringReady(m: Machine, s: State, env: Env)
    requires env.Valid() && LinedUp(m, s) && Tidy(m.x, m.ns, s.c.store) && s.spec.spares >= 0
    requires Rank(s.c.status.phase) < 2
    ensures var j := JobOf(m, s, env);
            var o := Reconcile(j, s.c).c;
            o.status.phase == Ready ==>
              && (Provisioned(j, o.status, o.store) <==> NoOrphans(j, o.status, o.store))
              && (DeploymentCleanupSucceeds(env) ==> Provisioned(j, o.status, o.store))
              && (forall slug :: slug in AllSlugs(o.status) && Provisioned(j, o.status, o.store) ==>
                    Runs(o.store, DeploymentKey(j.ns, slug)))
              && OneSlugPerID(o.status.students) && GoodLists(m.platform.domain, s.spec, o.status)
  {
    hide ReconcileProvisioning, ComputeSchedule, Summarize, Settle, GoodStudent, GoodSpare, Made, NoOrphans, Provisioned;
    var j := JobOf(m, s, env);
    var b := Begin(j, s.c);
    var o := Reconcile(j, s.c).c;
    if o.status.phase == Ready {
      assert b.status.phase == Phase.Provisioning;
      var d, healthy := GateInput(j, b);
      SettleGate(j, d, healthy);
      var p := Settle(j, d, healthy).c;
      assert o.store == p.store && o.status == p.status.(summary := o.status.summary);
      SameListsSameGate(j, p.status, o.status, o.store);
      assert Provisioned(j, o.status, o.store) ==> forall slug :: slug in AllSlugs(o.status) ==>
        Runs(o.store, DeploymentKey(j.ns, slug)) by { hide *; ProvisionedRuns(j, o.status, o.store); }
    }
  }

  lemma SameListsSameGate(j: Job, a: Status, b: Status, s: Cluster)
    requires a.students == b.students && a.spares == b.spares
    ensures Provisioned(j, a, s) <==> Provisioned(j, b, s)
    ensures NoOrphans(j, a, s) <==> NoOrphans(j, b, s)
  {
    assert AllSlugs(a) == AllSlugs(b) && ValidSlugs(a) == ValidSlugs(b);
  }

  lemma SharedIDSharesSlug(domain: string, spec: Spec, st: Status, a: nat, b: nat)
    requires GoodLists(domain, spec, st) && |st.students| == |spec.students|
    requires a < b < |spec.students| && spec.students[a].id == spec.students[b].id
    ensures !NoDup(AllSlugs(st))
  {
    var all := AllSlugs(st);
    assert GoodStudent(domain, spec, a, st.students[a]) && GoodStudent(domain, spec, b, st.students[b]);
    assert all[a] == all[b];
  }

  /** The webhook accepts two students with one id, but such an exam does not get past the gate. */
  lemma DuplicateIDsStuck(m: Machine, s: State, env: Env, a: nat, b: nat)
    requires env.Valid() && LinedUp(m, s) && Tidy(m.x, m.ns, s.c.store) && s.spec.spares >= 0
    requires Rank(s.c.status.phase) < 2 && DeploymentCleanupSucceeds(env)
    requires a < b < |s.spec.students| && s.spec.students[a].id == s.spec.students[b].id
    ensures Reconcile(JobOf(m, s, env), s.c).c.status.phase != Ready
  {
    hide Reconcile, Made, GoodStudent, GoodSpare, Owned, AllSlugs, GoodLists;
    var o := Reconcile(JobOf(m, s, env), s.c).c;
    if o.status.phase == Ready {
      EnteringReady(m, s, env);
      SharedIDSharesSlug(m.platform.domain, s.spec, o.status, a, b);
      assert false;
    }
  }
}
