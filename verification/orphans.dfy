/** A run on which the gate opens too early: its deployment clean-up fails and an orphan is counted. */
module Orphans {
  import opened Prelude
  import opened ExamApi
  import opened Timetable
  import opened Policy
  import opened Objects
  import opened Store
  import opened Oracle
  import opened Pass
  import opened System
  import opened Identity
  import opened Footprint
  import opened Tidiness
  import opened Gate
  import opened Recovery
  import opened Arrival

  const ONE_EACH := Spec(
    Template("exam:1", "small", 8080),
    Schedule(10 * HOUR, 2 * HOUR, 1.0, 0, 0, None),
    [Student("s1", "s1@example.org")],
    Email(0, 0, "teacher@example.org", "exam@example.org", "Exam"),
    1)

  const HOST := Machine(Ref("algebra", "school"), "exam-algebra-0", Platform("example.org", ""))

  function Admitted(): State {
    State(0, ONE_EACH, Ctx(EmptyStatus, map[], [], {}))
  }

  /** The spare is neither found nor created, and the deployments cannot be listed for clean-up. */
  predicate Fails(site: Site) {
    site == Lookup(SpareAt(0)) || site == Make(SpareAt(0), Workload) || site == CleanupList(DeploymentKind)
  }

  ghost function Unlucky(): Env {
    Env(site => if Fails(site) then Refused else NoFault, (site, keys) => Listing(keys), who => Some("d"),
        letter => false, Check(0, 0, true))
  }

  /** Provisioning is due; a clean pass loses its status write; both deployments become ready. */
  ghost function Prologue(): seq<Step> {
    [Tick(9 * HOUR), Reconciled(Unhindered(""), false),
     Readiness(DeploymentKey(HOST.ns, "a"), 1), Readiness(DeploymentKey(HOST.ns, "b"), 1)]
  }

  lemma AdmittedIsInitial()
    ensures Initial(HOST, Admitted())
  {
    assert ComputeSchedule(ONE_EACH).provision == 9 * HOUR;
  }

  lemma UnluckyIsValid()
    ensures Unlucky().Valid()
  {
  }

  // After the pass whose write was lost.

  /** The exam's deployments are the student's and one that was meant for the spare. */
  ghost predicate TwoDeployments(s: Cluster) {
    var a, b := DeploymentKey(HOST.ns, "a"), DeploymentKey(HOST.ns, "b");
    && (forall k: Key :: k.namespace == HOST.ns && k.kind == DeploymentKind ==> (k in s <==> k == a || k == b))
    && s[a].labels == Labels(HOST.x, "s1", "a") && s[a].body.DeploymentBody?
    && s[b].labels == Labels(HOST.x, "", "b") && s[b].body.DeploymentBody?
  }

  function FirstJob(env: Env): Job {
    Job(HOST.x, HOST.ns, HOST.platform, ONE_EACH, 9 * HOUR, env)
  }

  lemma FirstPass()
    ensures var o := Reconcile(FirstJob(Unhindered("")), Admitted().c).c;
            Restored(FirstJob(Unhindered("")), map[], o) && AllSlugs(o.status) == ["a", "b"] && |o.status.students| == 1
            && o.status.students[0].id == "s1"
  {
    hide Reconcile, Leftover, FreshSlugs, SpareList, StudentDeployments, LabelledRight, InstanceKey, IsReady;
    var j := FirstJob(Unhindered(""));
    VacantIsFresh(j, "", map[]);
    NothingLeft(j, map[]);
    assert ComputeSchedule(ONE_EACH).provision == 9 * HOUR;
    LostStatusRecovered(j, Admitted().c);
    var o := Reconcile(j, Admitted().c).c;
    assert StudentRestored(j, map[], 0, o.status.students[0]);
    assert SpareRestored(j, map[], 0, o.status.spares[0]);
    assert SlugFor("", StudentAt(0)) == "a" && SlugFor("", SpareAt(0)) == "b" by {
      assert "" + "a" + seq(0, _ => 'x') == "a" && "" + "b" + seq(0, _ => 'x') == "b";
    }
  }

  lemma LabelsOf(k: Key, o: Object, slug: string)
    requires Made(HOST.x, k, o) && k == DeploymentKey(HOST.ns, slug)
    ensures o.labels == Labels(HOST.x, LabelValue(o.labels, LabelStudent), slug) && o.body.DeploymentBody?
  {
    var template :| WellMade(HOST.x, template, k, o);
  }

  lemma RestoredTwo(j: Job, o: Ctx)
    requires j.ns == HOST.ns && j.x == HOST.x && Restored(j, map[], o) && Tidy(HOST.x, HOST.ns, o.store)
    requires AllSlugs(o.status) == ["a", "b"] && |o.status.students| == 1 && o.status.students[0].id == "s1"
    ensures TwoDeployments(o.store)
  {
    hide Labels, Made, StudentRestored, SpareRestored;
    var a, b := DeploymentKey(HOST.ns, "a"), DeploymentKey(HOST.ns, "b");
    var all := AllSlugs(o.status);
    assert all[0] == o.status.students[0].slug && all[1] == o.status.spares[0].slug;
    assert SlugOf(a.name) == all[0] && SlugOf(b.name) == all[1];
    assert InstanceKey(HOST.ns, a) && InstanceKey(HOST.ns, b);
    LabelsOf(a, o.store[a], "a");
    LabelsOf(b, o.store[b], "b");
    forall k: Key | k.namespace == HOST.ns && k.kind == DeploymentKind ensures k in o.store <==> k == a || k == b {
      if k in o.store {
        assert InstanceKey(HOST.ns, k) && SlugOf(k.name) in all;
        assert k == DeploymentKey(HOST.ns, SlugOf(k.name));
      }
    }
  }

  /** Where the prologue ends: everything is running and nothing is recorded. */
  lemma Forgotten() returns (u: State)
    ensures u == Run(HOST, Admitted(), Prologue()) && Legal(HOST, Admitted(), Prologue())
    ensures u.clock == 9 * HOUR && u.spec == ONE_EACH && u.c.status == EmptyStatus && TwoDeployments(u.c.store)
    ensures IsReady(u.c.store, DeploymentKey(HOST.ns, "a")) && IsReady(u.c.store, DeploymentKey(HOST.ns, "b"))
  {
    hide Reconcile, Restored, TwoDeployments, Unhindered, Tidy, AllSlugs;
    var s0, p := Admitted(), Prologue();
    var s1 := Apply(HOST, s0, p[0]);
    var s2 := Apply(HOST, s1, p[1]);
    var s3 := Apply(HOST, s2, p[2]);
    u := Apply(HOST, s3, p[3]);
    AdmittedIsInitial();
    assert JobOf(HOST, s1, Unhindered("")) == FirstJob(Unhindered("")) && s1.c == s0.c;
    VacantIsFresh(FirstJob(Unhindered("")), "", map[]);
    FirstPass();
    InitialLinedUp(HOST, s0);
    assert Tidy(HOST.x, HOST.ns, s1.c.store) by { EmptyIsTidy(); }
    StepLinedUp(HOST, s0, p[0]);
    StepTidy(HOST, s1, p[1]);
    RestoredTwo(FirstJob(Unhindered("")), Reconcile(FirstJob(Unhindered("")), s0.c).c);
    BecomingReady(s2.c.store);
    FourSteps(HOST, s0, p);
  }

  lemma EmptyIsTidy()
    ensures Tidy(HOST.x, HOST.ns, map[])
  {
  }

  lemma BecomingReady(s: Cluster)
    requires TwoDeployments(s)
    ensures var a, b := DeploymentKey(HOST.ns, "a"), DeploymentKey(HOST.ns, "b");
            var t := SetReady(SetReady(s, a, 1), b, 1);
            TwoDeployments(t) && IsReady(t, a) && IsReady(t, b)
  {
    assert "a" != "b";
  }

  lemma FourSteps(m: Machine, s: State, p: seq<Step>)
    requires |p| == 4
    ensures var s1 := Apply(m, s, p[0]);
            var s2 := Apply(m, s1, p[1]);
            var s3 := Apply(m, s2, p[2]);
            Run(m, s, p) == Apply(m, s3, p[3]) &&
            (Legal(m, s, p) <==>
               Enabled(m, s, p[0]) && Enabled(m, s1, p[1]) && Enabled(m, s2, p[2]) && Enabled(m, s3, p[3]))
  {
    hide Apply, Enabled;
    assert p[1..][1..] == p[2..] && p[2..][1..] == p[3..] && p[3..][1..] == [];
    assert p[1..][0] == p[1] && p[2..][0] == p[2] && p[3..][0] == p[3];
    var s1 := Apply(m, s, p[0]);
    var s2 := Apply(m, s1, p[1]);
    var s3 := Apply(m, s2, p[2]);
    assert Run(m, s1, p[1..]) == Run(m, s2, p[2..]);
    assert Run(m, s2, p[2..]) == Run(m, s3, p[3..]);
    assert Run(m, s3, p[3..]) == Run(m, Apply(m, s3, p[3]), []);
    assert Legal(m, s1, p[1..]) <==> Enabled(m, s1, p[1]) && Legal(m, s2, p[2..]);
    assert Legal(m, s2, p[2..]) <==> Enabled(m, s2, p[2]) && Legal(m, s3, p[3..]);
    assert Legal(m, s3, p[3..]) <==> Enabled(m, s3, p[3]);
  }

  // The unlucky pass.

  ghost predicate IsUnlucky(j: Job) {
    j.x == HOST.x && j.ns == HOST.ns && j.platform == HOST.platform && j.spec == ONE_EACH && j.env == Unlucky()
  }

  lemma StudentSelected(s: Cluster)
    requires TwoDeployments(s)
    ensures Selects(StudentSelector(HOST.x, "s1"), s[DeploymentKey(HOST.ns, "a")].labels)
    ensures !Selects(StudentSelector(HOST.x, "s1"), s[DeploymentKey(HOST.ns, "b")].labels)
    ensures Selects(OwnerLabels(HOST.x), s[DeploymentKey(HOST.ns, "a")].labels)
    ensures Selects(OwnerLabels(HOST.x), s[DeploymentKey(HOST.ns, "b")].labels)
    ensures Label(s, DeploymentKey(HOST.ns, "a"), LabelSlug) == "a"
  {
    assert LabelStudent in StudentSelector(HOST.x, "s1");
  }

  lemma StudentFoundAgain(j: Job, c: Ctx)
    requires IsUnlucky(j) && c.status.students == [] && TwoDeployments(c.store)
    ensures FindStudentSlug(j, c, 0) == Some("a")
  {
    hide Labels, StudentSelector, Selects, OwnerLabels;
    var a := DeploymentKey(HOST.ns, "a");
    StudentSelected(c.store);
    assert StudentDeployments(j, c.store, "s1") == {a};
    var items := j.env.order(Lookup(StudentAt(0)), {a});
    assert items == Listing({a}) && Enumerates(items, {a});
    EnumerationSize(items, {a});
    assert items[0] in items;
  }

  lemma InstanceStands(j: Job, s: Cluster)
    requires IsUnlucky(j) && DeploymentKey(j.ns, "a") in s
    ensures var r := ProvisionInstance(j, s, StudentAt(0), "s1", "a");
            && !r.err
            && (forall k: Key :: k.kind == DeploymentKind ==> (k in r.store <==> k in s))
            && (forall k :: k in s ==> k in r.store && r.store[k] == s[k])
  {
    hide Deployment, Service, PolicyObject, CreateAll;
    FaultlessCreateAll(s, InstanceObjects(j, StudentAt(0), "s1", "a"), j.env);
  }

  /** The student's instance is found again, and no deployment is added. */
  lemma StudentStands(j: Job, c: Ctx)
    requires IsUnlucky(j) && c.status.students == [] && TwoDeployments(c.store)
    ensures var r := ProvisionStudents(j, c, 0, true);
            && !r.err && r.healthy && r.c.status.spares == c.status.spares && r.c.status.phase == c.status.phase
            && (forall k: Key :: k.kind == DeploymentKind ==> (k in r.c.store <==> k in c.store))
            && (forall k :: k in c.store ==> k in r.c.store && r.c.store[k] == c.store[k])
  {
    hide ProvisionInstance, InstanceURL, Unlucky, TwoDeployments, FindStudentSlug;
    StudentFoundAgain(j, c);
    assert DeploymentKey(j.ns, "a") in c.store by { HasBoth(c.store); }
    InstanceStands(j, c.store);
    var d := ProvisionStudent(j, c, 0, "a");
    assert ProvisionStudents(j, d, 1, true) == Progress(d, true, false);
  }

  lemma HasBoth(s: Cluster)
    requires TwoDeployments(s)
    ensures DeploymentKey(HOST.ns, "a") in s && DeploymentKey(HOST.ns, "b") in s
  {
  }

  /** The spare is not found, gets a new slug, is not created and not recorded. */
  lemma SpareForgotten(j: Job, c: Ctx)
    requires IsUnlucky(j) && c.status.spares == []
    ensures ProvisionSpares(j, c, 0, true) == Progress(c, false, false)
  {
    hide Deployment, Service, PolicyObject, InstanceURL, Labels;
    assert FindSpareSlug(j, c, 0) == Some("d");
    var todo := InstanceObjects(j, SpareAt(0), "", "d");
    assert todo[0].site == Make(SpareAt(0), Workload) && Fails(todo[0].site);
    assert CreateAll(c.store, todo, j.env) == Reply(c.store, true);
    assert ProvisionSpare(j, c, 0, "d") == c;
    assert ProvisionSpares(j, c, 1, false) == Progress(c, false, false);
  }

  lemma BothCounted(j: Job, s: Cluster)
    requires IsUnlucky(j) && TwoDeployments(s)
    requires IsReady(s, DeploymentKey(HOST.ns, "a")) && IsReady(s, DeploymentKey(HOST.ns, "b"))
    ensures AllInstancesHealthy(j, s)
  {
    hide Labels, OwnerLabels, Selects, IsReady;
    var a, b := DeploymentKey(HOST.ns, "a"), DeploymentKey(HOST.ns, "b");
    assert a != b by { assert "a" != "b"; }
    StudentSelected(s);
    assert Owned(j, s, DeploymentKind) == {a, b};
    assert |{a, b}| == 2;
  }

  lemma NothingCleaned(j: Job, s: Cluster, valid: set<string>)
    requires IsUnlucky(j)
    ensures Cleanup(j, s, valid).store == s
  {
    assert ListFails(j.env, CleanupList(DeploymentKind));
  }

  lemma SameDeployments(s: Cluster, t: Cluster)
    requires TwoDeployments(s)
    requires forall k: Key :: k.kind == DeploymentKind ==> (k in t <==> k in s)
    requires forall k :: k in s ==> k in t && t[k] == s[k]
    ensures TwoDeployments(t)
    ensures forall slug :: IsReady(s, DeploymentKey(HOST.ns, slug)) ==> IsReady(t, DeploymentKey(HOST.ns, slug))
  {
    hide Labels;
    HasBoth(s);
  }

  lemma ReachesTheGate(j: Job, b: Ctx) returns (d: Ctx)
    requires IsUnlucky(j) && TwoDeployments(b.store) && b.status.students == [] && b.status.spares == []
    requires IsReady(b.store, DeploymentKey(HOST.ns, "a")) && IsReady(b.store, DeploymentKey(HOST.ns, "b"))
    ensures ReconcileProvisioning(j, b) == Settle(j, d, false)
    ensures d.status.spares == [] && AllInstancesHealthy(j, d.store)
  {
    hide ProvisionStudents, ProvisionSpares, AllInstancesHealthy, Settle, TwoDeployments, IsReady;
    var c0 := b.(store := Create(b.store, NamespaceKey(j.ns), NamespaceObject(j.x), NoFault).store);
    assert j.env.fault(NamespaceCreate) == NoFault && j.env.fault(SecretCopy) == NoFault;
    SameDeployments(b.store, c0.store);
    StudentStands(j, c0);
    d := ProvisionStudents(j, c0, 0, true).c;
    SameDeployments(c0.store, d.store);
    SpareForgotten(j, d);
    BothCounted(j, d.store);
  }

  /** From an exam that was just admitted, a legal run leads to a pass that opens the gate although no
      spare is recorded: the forgotten deployment made up the count. */
  lemma OrphanOpensGate()
    ensures Initial(HOST, Admitted()) && Legal(HOST, Admitted(), Prologue()) && Unlucky().Valid()
    ensures var u := Run(HOST, Admitted(), Prologue());
            var j := JobOf(HOST, u, Unlucky());
            var o := Reconcile(j, u.c).c;
            o.status.phase == Ready && o.status.spares == [] && !Gate.Provisioned(j, o.status, o.store)
  {
    hide ReconcileProvisioning, AllInstancesHealthy, Cleanup, ValidSlugs, Summarize, Unlucky, Admitted, Prologue, Run, Legal,
         TwoDeployments, IsReady;
    AdmittedIsInitial();
    UnluckyIsValid();
    var u := Forgotten();
    var j := JobOf(HOST, u, Unlucky());
    var b := Begin(j, u.c);
    assert ComputeSchedule(ONE_EACH).provision == 9 * HOUR;
    assert b.status.phase == Phase.Provisioning && b.store == u.c.store;
    var d := ReachesTheGate(j, b);
    NothingCleaned(j, d.store, ValidSlugs(AddCondition(d.status, ProvisioningDegraded)));
  }
}
