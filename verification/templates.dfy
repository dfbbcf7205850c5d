/** Do the exam's objects follow its template? What edits of the image, the resources or the port do. */
module Templates {
  import opened ExamApi
  import opened Timetable
  import opened Webhook
  import opened Policy
  import opened Objects
  import opened Store
  import opened Oracle
  import opened Pass
  import opened System
  import opened Lifecycle
  import opened Alignment
  import opened Identity
  import opened Footprint
  import opened Interference
  import opened Tidiness
  import opened Access
  import opened Wakeup
  import opened Gate
  import opened Recovery
  import opened Leftovers
  import Decimal

  /** Every object in the exam's namespace is what the provisioner would make from the present spec. */
  ghost predicate UpToDate(m: Machine, s: State) {
    forall k :: k in s.c.store && k.namespace == m.ns ==> WellMade(m.x, s.spec.template, k, s.c.store[k])
  }

  /** May the template change from `a` to `b` over this cluster? Deployments depend on all of it, the
      other objects on the port. */
  predicate Fits(ns: string, s: Cluster, a: Template, b: Template) {
    forall k :: k in s && k.namespace == ns ==> a.port == b.port && (k.kind == DeploymentKind ==> a == b)
  }

  lemma PolicyRemadeIff(x: Ref, part: PolicyPart, student: string, slug: string, a: int, b: int, o: Object)
    requires WellMadePolicy(x, part, student, slug, a, o)
    ensures WellMadePolicy(x, part, student, slug, b, o) <==> a == b
  {
    hide Labels, DenyAllSpec, EgressAllowSpec, IngressAllowSpec;
    if WellMadePolicy(x, part, student, slug, b, o) {
      assert o.labels[LabelPort] == Decimal.Print(a) && o.labels[LabelPort] == Decimal.Print(b);
      Decimal.PrintInjective(a, b);
    }
  }

  /** One object fits two templates exactly when they agree on what it was made from. */
  lemma RemadeIff(x: Ref, a: Template, b: Template, k: Key, o: Object)
    requires WellMade(x, a, k, o) && k.kind != NamespaceKind
    ensures WellMade(x, b, k, o) <==> a.port == b.port && (k.kind == DeploymentKind ==> a == b)
  {
    hide Labels, WellMadePolicy;
    if k.kind == PolicyKind {
      PolicyRemadeIff(x, k.name.part, LabelValue(o.labels, LabelStudent), SlugOf(k.name), a.port, b.port, o);
    }
  }

  lemma EditedIff(m: Machine, s: State, spec: Spec)
    requires m.ns != "" && UpToDate(m, s)
    ensures UpToDate(m, s.(spec := spec)) <==> Fits(m.ns, s.c.store, s.spec.template, spec.template)
  {
    hide WellMade;
    var a, b := s.spec.template, spec.template;
    forall k | k in s.c.store && k.namespace == m.ns
      ensures WellMade(m.x, b, k, s.c.store[k]) <==> a.port == b.port && (k.kind == DeploymentKind ==> a == b)
    {
      NotANamespace(m.x, a, k, s.c.store[k]);
      RemadeIff(m.x, a, b, k, s.c.store[k]);
    }
  }

  lemma NotANamespace(x: Ref, a: Template, k: Key, o: Object)
    requires WellMade(x, a, k, o) && k.namespace != ""
    ensures k.kind != NamespaceKind
  {
  }

  lemma ReadinessKeeps(x: Ref, template: Template, ns: string, s: Cluster, key: Key, n: nat)
    requires forall k :: k in s && k.namespace == ns ==> WellMade(x, template, k, s[k])
    ensures forall k :: k in SetReady(s, key, n) && k.namespace == ns ==> WellMade(x, template, k, SetReady(s, key, n)[k])
  {
    hide Labels, OwnerLabels;
  }

  /** Every step keeps the objects up to date, except an accepted edit whose new template does not fit
      what is already there. */
  lemma StepUpToDateIff(m: Machine, s: State, step: Step)
    requires m.ns != "" && LinedUp(m, s) && Enabled(m, s, step) && UpToDate(m, s)
    ensures var t := Apply(m, s, step);
            UpToDate(m, t) <==> Fits(m.ns, s.c.store, s.spec.template, t.spec.template)
  {
    hide Reconcile, WellMade, ValidateUpdate, GoodStudent, GoodSpare;
    match step
    case Edit(spec) => EditedIff(m, s, Apply(m, s, step).spec);
    case Readiness(key, ready) => ReadinessKeeps(m.x, s.spec.template, m.ns, s.c.store, key, ready);
    case Reconciled(env, saved) => PassContained(JobOf(m, s, env), s.c);
    case _ =>
  }

  /** Every edit of the run that is accepted fits what the namespace holds at that moment. */
  ghost predicate EditsFit(m: Machine, s: State, steps: seq<Step>)
    decreases |steps|
  {
    steps == [] ||
    (var t := Apply(m, s, steps[0]);
     Fits(m.ns, s.c.store, s.spec.template, t.spec.template) && EditsFit(m, t, steps[1..]))
  }

  /** The objects are up to date in every state of the run. */
  ghost predicate AlwaysUpToDate(m: Machine, s: State, steps: seq<Step>)
    decreases |steps|
  {
    UpToDate(m, s) && (steps == [] || AlwaysUpToDate(m, Apply(m, s, steps[0]), steps[1..]))
  }

  /** Along a run the objects stay up to date if and only if every accepted edit fits them. */
  lemma {:induction false} RunUpToDateIff(m: Machine, s: State, steps: seq<Step>)
    requires m.ns != "" && LinedUp(m, s) && Legal(m, s, steps) && UpToDate(m, s)
    ensures AlwaysUpToDate(m, s, steps) <==> EditsFit(m, s, steps)
    decreases |steps|
  {
    hide Apply, UpToDate, Fits, LinedUp;
    if steps != [] {
      var t := Apply(m, s, steps[0]);
      StepUpToDateIff(m, s, steps[0]);
      StepLinedUp(m, s, steps[0]);
      if UpToDate(m, t) {
        RunUpToDateIff(m, t, steps[1..]);
      }
    }
  }

  // Which edits can fail to fit: only those after a provisioning pass whose write was lost.

  /** A pass starts provisioning and does not get to record it. */
  predicate LosesStart(s: State, step: Step) {
    step.Reconciled? && !step.saved && Rank(s.c.status.phase) == 0 && ComputeSchedule(s.spec).provision <= s.clock
  }

  ghost predicate NoLostStart(m: Machine, s: State, steps: seq<Step>)
    decreases |steps|
  {
    steps == [] || (!LosesStart(s, steps[0]) && NoLostStart(m, Apply(m, s, steps[0]), steps[1..]))
  }

  ghost predicate EmptyBefore(m: Machine, s: State) {
    Rank(s.c.status.phase) == 0 ==> forall k :: k in s.c.store ==> k.namespace != m.ns
  }

  lemma WaitingPass(j: Job, c: Ctx)
    requires Rank(c.status.phase) == 0
    ensures if j.now < ComputeSchedule(j.spec).provision then Reconcile(j, c).c.store == c.store
            else Rank(Reconcile(j, c).c.status.phase) >= 1
  {
    hide ReconcileProvisioning, ComputeSchedule, Summarize;
    var b := Begin(j, c);
    BeginPlaces(j, c);
    if b.status.phase == Phase.Provisioning {
      ProvisioningPhase(j, b);
    }
  }

  lemma StepEmptyBefore(m: Machine, s: State, step: Step)
    requires EmptyBefore(m, s) && Enabled(m, s, step) && !LosesStart(s, step)
    ensures EmptyBefore(m, Apply(m, s, step))
  {
    hide Reconcile, ComputeSchedule, ValidateUpdate;
    StepPhase(m, s, step);
    if step.Reconciled? && Rank(s.c.status.phase) == 0 {
      WaitingPass(JobOf(m, s, step.env), s.c);
    }
  }

  lemma EmptyFits(m: Machine, s: State, step: Step)
    requires EmptyBefore(m, s)
    ensures Fits(m.ns, s.c.store, s.spec.template, Apply(m, s, step).spec.template)
  {
    hide Reconcile, ComputeSchedule;
  }

  lemma {:induction false} RunFits(m: Machine, s: State, steps: seq<Step>)
    requires EmptyBefore(m, s) && Legal(m, s, steps) && NoLostStart(m, s, steps)
    ensures EditsFit(m, s, steps)
    decreases |steps|
  {
    hide Apply, EmptyBefore, Fits, LosesStart;
    if steps != [] {
      EmptyFits(m, s, steps[0]);
      StepEmptyBefore(m, s, steps[0]);
      RunFits(m, Apply(m, s, steps[0]), steps[1..]);
    }
  }

  /** If no pass that starts provisioning loses its write, every deployment runs the spec's image with its
      resources and port, and every service, route and policy has its port, in every state of the run. */
  lemma UpToDateWithoutLostStart(m: Machine, s: State, steps: seq<Step>)
    requires m.ns != "" && Initial(m, s) && Legal(m, s, steps) && NoLostStart(m, s, steps)
    ensures AlwaysUpToDate(m, s, steps)
  {
    hide Legal, NoLostStart, AlwaysUpToDate, EditsFit, WellMade, LockTime;
    InitialLinedUp(m, s);
    assert UpToDate(m, s) && EmptyBefore(m, s);
    RunFits(m, s, steps);
    RunUpToDateIff(m, s, steps);
  }

  // The run that fails.

  /** The edit of the template that is accepted because nothing is recorded yet. */
  ghost predicate LateEdit(m: Machine, s: State, later: Spec) {
    && ValidSpec(later) && later.template != s.spec.template && later.students == s.spec.students
    && ComputeSchedule(later).provision <= s.clock
  }

  /** Every deployment, service and policy of the recorded students is still the one made from `was`. */
  ghost predicate StudentsRunOld(m: Machine, u: State, was: Template) {
    forall i :: 0 <= i < |u.c.status.students| ==>
      DeploymentKey(m.ns, u.c.status.students[i].slug) in u.c.store
      && forall k :: k in u.c.store && k.namespace == m.ns && SlugOf(k.name) == u.c.status.students[i].slug ==>
           WellMade(m.x, was, k, u.c.store[k])
  }

  /** A clean pass rebuilds what the lost pass left, on the lost pass's deployments. */
  lemma StudentReused(j: Job, s0: Cluster, c1: Ctx, k: Job, c2: Ctx, i: nat)
    requires j.x == k.x && j.ns == k.ns && j.spec.students == k.spec.students && i < |j.spec.students|
    requires Restored(j, s0, c1) && Restored(k, c1.store, c2) && Tidy(j.x, j.ns, c1.store) && DistinctIDs(j.spec)
    ensures i < |c2.status.students| && c2.status.students[i].slug in AllSlugs(c1.status)
  {
    hide Labels, Made, SpareRestored, AllSlugs, Tidy;
    var id := j.spec.students[i].id;
    var e := c1.status.students[i];
    assert StudentRestored(j, s0, i, e) && StudentRestored(k, c1.store, i, c2.status.students[i]);
    assert e.slug in AllSlugs(c1.status) by { assert AllSlugs(c1.status)[i] == e.slug by { SlugAt(c1.status, i); } }
    var d := DeploymentKey(j.ns, e.slug);
    assert SlugOf(d.name) == e.slug && InstanceKey(j.ns, d);
    HersIsSelected(j, c1.store, d, id);
    assert StudentDeployments(k, c1.store, id) == StudentDeployments(j, c1.store, id);
    assert d in StudentDeployments(k, c1.store, id);
    assert DeploymentKey(j.ns, c2.status.students[i].slug) in c1.store;
  }

  lemma SlugAt(st: Status, i: nat)
    requires i < |st.students|
    ensures i < |AllSlugs(st)| && AllSlugs(st)[i] == st.students[i].slug
  {
  }

  lemma HersIsSelected(j: Job, s: Cluster, d: Key, id: string)
    requires Tidy(j.x, j.ns, s) && d in s && d.namespace == j.ns && d.kind == DeploymentKind
    requires Label(s, d, LabelStudent) == id && id != ""
    ensures d in StudentDeployments(j, s, id)
  {
    assert Made(j.x, d, s[d]);
    var template :| WellMade(j.x, template, d, s[d]);
  }

  lemma StillOld(m: Machine, was: Template, j: Job, s0: Cluster, c1: Ctx, k: Job, c2: Ctx, i: nat)
    requires m.x == j.x == k.x && m.ns == j.ns == k.ns && j.spec.students == k.spec.students && i < |j.spec.students|
    requires Restored(j, s0, c1) && Restored(k, c1.store, c2) && Tidy(j.x, j.ns, c1.store) && DistinctIDs(j.spec)
    requires forall o :: o in c1.store && o.namespace == m.ns ==> WellMade(m.x, was, o, c1.store[o])
    ensures i < |c2.status.students| && DeploymentKey(m.ns, c2.status.students[i].slug) in c2.store
    ensures forall o :: o in c2.store && o.namespace == m.ns && SlugOf(o.name) == c2.status.students[i].slug ==>
              WellMade(m.x, was, o, c2.store[o])
  {
    hide WellMade, Made, Tidy, AllSlugs, LabelledRight, SpareRestored, StudentRestored;
    StudentReused(j, s0, c1, k, c2, i);
    var slug := c2.status.students[i].slug;
    assert slug in AllSlugs(c2.status) by { SlugAt(c2.status, i); }
    var d := DeploymentKey(m.ns, slug);
    assert InstanceKey(m.ns, d) && SlugOf(d.name) == slug;
    forall o | o in c2.store && o.namespace == m.ns && SlugOf(o.name) == slug
      ensures WellMade(m.x, was, o, c2.store[o])
    {
      assert InstanceKey(m.ns, o);
      assert o in c1.store;
      assert c2.store[o] == c1.store[o];
    }
  }

  /** A clean provisioning pass loses its write, the template is edited, and the next clean pass records
      every student with the objects of the old template, on which the webhook then freezes the spec. */
  lemma EditAfterLostPass(m: Machine, s: State, env: Env, later: Spec, env': Env)
    requires m.ns != "" && Initial(m, s) && LateEdit(m, s, later) && ComputeSchedule(s.spec).provision <= s.clock
    requires DistinctIDs(s.spec) && env.Valid() && env.Calm() && env'.Valid() && env'.Calm()
    requires FreshSlugs(JobOf(m, s, env), s.c.store)
    requires FreshSlugs(JobOf(m, s, env'), AfterPass(m, s, env, false).c.store)
    ensures var u := Run(m, s, [Reconciled(env, false), Edit(later), Reconciled(env', true)]);
            && u.spec == later && Rank(u.c.status.phase) >= 1 && |u.c.status.students| == |later.students| > 0
            && StudentsRunOld(m, u, s.spec.template) && !UpToDate(m, u)
  {
    hide Reconcile, Restored, FreshSlugs, Leftover, Tidy, WellMade, ComputeSchedule, LockTime, Gated;
    var j := JobOf(m, s, env);
    InitialLinedUp(m, s);
    ReachableLeftover(m, s, [], env);
    LostStatusRecovered(j, s.c);
    var a := AfterPass(m, s, env, false);
    var c1 := Reconcile(j, s.c).c;
    assert UpToDate(m, s);
    StepUpToDateIff(m, s, Reconciled(env, false));
    StepLinedUp(m, s, Reconciled(env, false));
    assert Tidy(m.x, m.ns, s.c.store) by { LeftoverTidy(j, s.c.store); }
    StepTidy(m, s, Reconciled(env, false));
    var b := Apply(m, a, Edit(later));
    assert b == a.(spec := later);
    var k := JobOf(m, b, env');
    assert Legal(m, s, [Reconciled(env, false)]) && Run(m, s, [Reconciled(env, false)]) == a by { OneStep(m, s, Reconciled(env, false)); }
    ReachableLeftover(m, s, [Reconciled(env, false)], env');
    SameNamespaceSameLeftover(JobOf(m, a, env'), k, b.c.store);
    SameNamespaceSameFresh(JobOf(m, s, env'), k, b.c.store);
    LostStatusRecovered(k, b.c);
    var u := Apply(m, b, Reconciled(env', true));
    PassPhase(k, b.c);
    WaitingPass(k, b.c);
    RestoredSizes(k, b.c.store, u.c);
    forall i | 0 <= i < |u.c.status.students|
      ensures DeploymentKey(m.ns, u.c.status.students[i].slug) in u.c.store
      ensures forall o :: o in u.c.store && o.namespace == m.ns && SlugOf(o.name) == u.c.status.students[i].slug ==>
                WellMade(m.x, s.spec.template, o, u.c.store[o])
    {
      StillOld(m, s.spec.template, j, s.c.store, c1, k, u.c, i);
    }
    OldIsNotCurrent(m, u, s.spec.template);
    RunThree(m, s, Reconciled(env, false), Edit(later), Reconciled(env', true));
  }

  lemma OldIsNotCurrent(m: Machine, u: State, was: Template)
    requires StudentsRunOld(m, u, was) && u.c.status.students != [] && was != u.spec.template && m.ns != ""
    ensures !UpToDate(m, u)
  {
    hide WellMade;
    var d := DeploymentKey(m.ns, u.c.status.students[0].slug);
    assert d in u.c.store && SlugOf(d.name) == u.c.status.students[0].slug;
    RemadeIff(m.x, was, u.spec.template, d, u.c.store[d]);
  }

  lemma RestoredSizes(j: Job, s0: Cluster, c: Ctx)
    requires Restored(j, s0, c)
    ensures |c.status.students| == |j.spec.students|
  {
  }

  lemma SameNamespaceSameLeftover(j: Job, k: Job, s: Cluster)
    requires Leftover(j, s) && j.x == k.x && j.ns == k.ns
    ensures Leftover(k, s)
  {
  }

  lemma SameNamespaceSameFresh(j: Job, k: Job, s: Cluster)
    requires FreshSlugs(j, s) && j.ns == k.ns && j.env == k.env
    ensures FreshSlugs(k, s)
  {
  }

  lemma OneStep(m: Machine, s: State, step: Step)
    requires Enabled(m, s, step)
    ensures Legal(m, s, [step]) && Run(m, s, [step]) == Apply(m, s, step)
  {
    hide Apply, Enabled;
    assert [step][1..] == [];
  }
}
