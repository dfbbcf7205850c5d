/** Every exam can become Ready: a run that leads there, even through a lost status write. */
module Arrival {
  import opened Prelude
  import opened ExamApi
  import opened Timetable
  import opened Objects
  import opened Store
  import opened Oracle
  import opened Pass
  import opened System
  import opened Identity
  import opened Footprint
  import opened Tidiness
  import opened Mailing
  import opened Gate
  import opened Recovery
  import opened Leftovers
  import opened Templates
  import opened Sharing

  // A first clean pass.

  /** No object of the exam's namespace is there yet. */
  ghost predicate Vacant(ns: string, s: Cluster) {
    forall k :: k in s ==> k.namespace != ns
  }

  lemma NothingLeft(j: Job, s: Cluster)
    requires j.env.Valid() && j.env.Calm() && Vacant(j.ns, s)
    ensures Leftover(j, s) && SpareList(j, s) == []
    ensures forall id :: StudentDeployments(j, s, id) == {}
  {
    hide SpareList;
    SameSparesSameList(j, s, s, 0);
    assert SpareSet(j, s) == {};
    Pigeonhole(SpareList(j, s));
  }

  lemma VacantIsFresh(j: Job, salt: string, s: Cluster)
    requires j.env == Unhindered(salt) && Vacant(j.ns, s)
    ensures FreshSlugs(j, s)
  {
    forall a, b | j.env.slug(a) == j.env.slug(b) ensures a == b {
      SlugsDiffer(salt, a, b);
    }
  }

  /** In a vacant namespace every slug is generated, for the student or the spare at that position. */
  lemma RestoredSlugs(j: Job, s: Cluster, c: Ctx, salt: string)
    requires j.env == Unhindered(salt) && Vacant(j.ns, s) && Restored(j, s, c)
    ensures forall i :: 0 <= i < |c.status.students| ==> c.status.students[i].slug == SlugFor(salt, StudentAt(i))
    ensures forall i :: 0 <= i < |c.status.spares| ==> c.status.spares[i].slug == SlugFor(salt, SpareAt(i))
  {
    hide StudentDeployments, SpareList, LabelledRight, InstanceKey, AllSlugs, SlugFor;
    NothingLeft(j, s);
    forall i | 0 <= i < |c.status.students| ensures c.status.students[i].slug == SlugFor(salt, StudentAt(i)) {
      assert StudentRestored(j, s, i, c.status.students[i]);
      assert j.env.slug(StudentAt(i)) == Some(SlugFor(salt, StudentAt(i)));
    }
    forall i | 0 <= i < |c.status.spares| ensures c.status.spares[i].slug == SlugFor(salt, SpareAt(i)) {
      assert SpareRestored(j, s, i, c.status.spares[i]);
      assert j.env.slug(SpareAt(i)) == Some(SlugFor(salt, SpareAt(i)));
    }
  }

  lemma SaltTells(who: Who, other: Who)
    ensures SlugFor("", who) != SlugFor("z", other)
  {
    assert SlugFor("", who)[0] != 'z' && SlugFor("z", other)[0] == 'z';
  }

  /** Slugs with another salt are fresh over what the first pass made. */
  lemma OtherSaltIsFresh(j: Job, s: Cluster, st: Status)
    requires j.env == Unhindered("z")
    requires forall k :: k in s && k.namespace == j.ns ==> SlugOf(k.name) in AllSlugs(st)
    requires forall i :: 0 <= i < |st.students| ==> st.students[i].slug == SlugFor("", StudentAt(i))
    requires forall i :: 0 <= i < |st.spares| ==> st.spares[i].slug == SlugFor("", SpareAt(i))
    ensures FreshSlugs(j, s)
  {
    hide SlugFor;
    var all := AllSlugs(st);
    forall a, b | j.env.slug(a) == j.env.slug(b) ensures a == b {
      SlugsDiffer("z", a, b);
    }
    forall who, k | k in s && k.namespace == j.ns ensures j.env.slug(who) != Some(SlugOf(k.name)) {
      var e :| 0 <= e < |all| && all[e] == SlugOf(k.name);
      if e < |st.students| {
        SaltTells(StudentAt(e), who);
      } else {
        SaltTells(SpareAt(e - |st.students|), who);
      }
    }
  }

  // Deployments become ready.

  function Readies(ns: string, slugs: seq<string>): seq<Step> {
    if slugs == [] then [] else [Readiness(DeploymentKey(ns, slugs[0]), 1)] + Readies(ns, slugs[1..])
  }

  /** Only the readiness of deployments of the namespace differs. */
  ghost predicate ButForReadiness(ns: string, s: Cluster, t: Cluster) {
    && (forall k :: k in s <==> k in t)
    && (forall k :: k in s ==> s[k].labels == t[k].labels && (k.namespace != ns ==> s[k] == t[k]))
    && (forall k :: k in s ==> (s[k].body.DeploymentBody? <==> t[k].body.DeploymentBody?))
    && (forall k :: k in s && IsReady(s, k) ==> IsReady(t, k))
  }

  lemma ButForReadinessTransitive(ns: string, s: Cluster, t: Cluster, u: Cluster)
    requires ButForReadiness(ns, s, t) && ButForReadiness(ns, t, u)
    ensures ButForReadiness(ns, s, u)
  {
  }

  predicate Deploys(s: Cluster, k: Key) {
    k in s && s[k].body.DeploymentBody?
  }

  lemma OneReady(ns: string, s: Cluster, slug: string)
    ensures var k := DeploymentKey(ns, slug);
            ButForReadiness(ns, s, SetReady(s, k, 1))
            && (Deploys(s, k) ==> IsReady(SetReady(s, k, 1), k))
  {
  }

  lemma {:induction false} RunReadies(m: Machine, s: State, slugs: seq<string>)
    ensures var u := Run(m, s, Readies(m.ns, slugs));
            && Legal(m, s, Readies(m.ns, slugs))
            && u == s.(c := s.c.(store := u.c.store))
            && ButForReadiness(m.ns, s.c.store, u.c.store)
            && forall slug :: slug in slugs && Deploys(s.c.store, DeploymentKey(m.ns, slug)) ==>
                 IsReady(u.c.store, DeploymentKey(m.ns, slug))
    decreases |slugs|
  {
    hide IsReady;
    if slugs != [] {
      var step := Readiness(DeploymentKey(m.ns, slugs[0]), 1);
      var steps := Readies(m.ns, slugs);
      assert steps[0] == step && steps[1..] == Readies(m.ns, slugs[1..]);
      var t := Apply(m, s, step);
      OneReady(m.ns, s.c.store, slugs[0]);
      RunReadies(m, t, slugs[1..]);
      ButForReadinessTransitive(m.ns, s.c.store, t.c.store, Run(m, t, steps[1..]).c.store);
    } else {
      assert ButForReadiness(m.ns, s.c.store, s.c.store);
    }
  }

  lemma {:induction false} ReadiesEditNothing(ns: string, slugs: seq<string>)
    ensures forall i :: 0 <= i < |Readies(ns, slugs)| ==> Readies(ns, slugs)[i].Readiness?
  {
    if slugs != [] {
      ReadiesEditNothing(ns, slugs[1..]);
    }
  }

  lemma StillRestored(j: Job, s: Cluster, c: Ctx, t: Cluster)
    requires Vacant(j.ns, s) && Restored(j, s, c) && ButForReadiness(j.ns, c.store, t)
    ensures Restored(j, s, c.(store := t))
  {
    hide InstanceKey, StudentRestored, SpareRestored, AllSlugs, IsReady;
    assert LabelledRight(j, c.status, t);
  }

  // The second pass finds everything again.

  lemma SparesPartDistinct(st: Status)
    requires NoDup(AllSlugs(st)) && "" !in AllSlugs(st)
    ensures var q := seq(|st.spares|, i requires 0 <= i < |st.spares| => st.spares[i].slug); NoDup(q) && "" !in q
  {
    var all, n := AllSlugs(st), |st.students|;
    var q := seq(|st.spares|, i requires 0 <= i < |st.spares| => st.spares[i].slug);
    assert forall i :: 0 <= i < |q| ==> q[i] == all[n + i];
  }

  /** There are as many leftover spares as the first pass recorded. */
  lemma EnoughLeftoverSpares(j: Job, s: Cluster, c: Ctx, k: Job)
    requires k.x == j.x && k.ns == j.ns && k.env.Valid() && k.env.Calm()
    requires Restored(j, s, c) && Tidy(j.x, j.ns, c.store)
    ensures |SpareList(k, c.store)| >= |c.status.spares|
  {
    hide Made, StudentRestored, SpareRestored, SpareList, SpareSet, Tidy;
    var st := c.status;
    var q := seq(|st.spares|, i requires 0 <= i < |st.spares| => st.spares[i].slug);
    SparesPartDistinct(st);
    SameSparesSameList(k, c.store, c.store, 0);
    forall slug | slug in Elements(q) ensures slug in SpareSet(k, c.store) {
      var i :| 0 <= i < |q| && q[i] == slug;
      assert AllSlugs(st)[|st.students| + i] == slug;
      DeploymentIsInstanceKey(j.ns, slug);
      assert SlugOf(DeploymentKey(j.ns, slug).name) == slug;
      assert Nobodys(k, c.store, slug);
      NobodysIsSpare(k, c.store, slug);
    }
    SubsetCardinality(Elements(q), SpareSet(k, c.store));
    Pigeonhole(q);
    Pigeonhole(SpareList(k, c.store));
  }

  lemma SpareReused(j: Job, s: Cluster, c: Ctx, k: Job, d: Ctx, i: nat)
    requires k.x == j.x && k.ns == j.ns && k.env.Valid() && k.env.Calm() && k.spec.spares == j.spec.spares
    requires Restored(j, s, c) && Restored(k, c.store, d) && Tidy(j.x, j.ns, c.store)
    requires i < |d.status.spares|
    ensures DeploymentKey(j.ns, d.status.spares[i].slug) in c.store
  {
    hide Made, StudentRestored, SpareList, SpareSet, Tidy, AllSlugs, LabelledRight;
    EnoughLeftoverSpares(j, s, c, k);
    SameSparesSameList(k, c.store, c.store, 0);
    assert SpareRestored(k, c.store, i, d.status.spares[i]);
    assert SpareList(k, c.store)[i] in SpareList(k, c.store);
    LeftoverSpare(k, c.store, d.status.spares[i].slug);
  }

  /** Whatever the second pass records was deployed by the first. */
  lemma AllReused(j: Job, s: Cluster, c: Ctx, k: Job, d: Ctx, slug: string)
    requires k.x == j.x && k.ns == j.ns && k.env.Valid() && k.env.Calm()
    requires k.spec.spares == j.spec.spares && k.spec.students == j.spec.students && DistinctIDs(j.spec)
    requires Restored(j, s, c) && Restored(k, c.store, d) && Tidy(j.x, j.ns, c.store)
    requires slug in AllSlugs(d.status)
    ensures DeploymentKey(j.ns, slug) in c.store
  {
    hide Made, StudentRestored, SpareRestored, Tidy, LabelledRight, InstanceKey;
    var all, n := AllSlugs(d.status), |d.status.students|;
    var e :| 0 <= e < |all| && all[e] == slug;
    if e < n {
      StudentReused(j, s, c, k, d, e);
      DeploymentIsInstanceKey(j.ns, slug);
      assert SlugOf(DeploymentKey(j.ns, slug).name) == slug;
    } else {
      SpareReused(j, s, c, k, d, e - n);
    }
  }

  lemma AllReadyAgain(j: Job, s: Cluster, c: Ctx, k: Job, d: Ctx)
    requires k.x == j.x && k.ns == j.ns && k.env.Valid() && k.env.Calm()
    requires k.spec.spares == j.spec.spares && k.spec.students == j.spec.students && DistinctIDs(j.spec)
    requires Restored(j, s, c) && Restored(k, c.store, d) && Tidy(j.x, j.ns, c.store)
    requires forall slug :: slug in AllSlugs(c.status) ==> IsReady(c.store, DeploymentKey(j.ns, slug))
    ensures forall slug :: slug in AllSlugs(d.status) ==> IsReady(d.store, DeploymentKey(j.ns, slug))
  {
    hide Made, StudentRestored, SpareRestored, Tidy, LabelledRight, InstanceKey, AllSlugs;
    forall slug | slug in AllSlugs(d.status) ensures IsReady(d.store, DeploymentKey(j.ns, slug)) {
      var o := DeploymentKey(j.ns, slug);
      AllReused(j, s, c, k, d, slug);
      assert SlugOf(o.name) == slug && o.namespace == j.ns;
      assert slug in AllSlugs(c.status);
      DeploymentIsInstanceKey(j.ns, slug);
      assert o in d.store && d.store[o] == c.store[o];
    }
  }

  // The run.

  /** The exam is Ready on its own spec, and every student waits for a mail. */
  ghost predicate AtReady(s: State, u: State) {
    && u.c.status.phase == Ready && u.spec == s.spec
    && |u.c.status.students| == |s.spec.students|
    && (forall i :: 0 <= i < |u.c.status.students| ==> u.c.status.students[i].email == EmailPending)
    && AllEmailsSent !in u.c.status.conditions
  }

  /** Provisioning is due, a clean pass loses its write, and everything it made becomes ready. */
  lemma Deployed(m: Machine, s: State) returns (steps: seq<Step>, c: Ctx)
    requires m.ns != "" && Initial(m, s) && DistinctIDs(s.spec)
    ensures Legal(m, s, steps) && (forall i :: 0 <= i < |steps| ==> !steps[i].Edit?)
    ensures var u := Run(m, s, steps);
            && u.spec == s.spec && u.clock == Max(s.clock, ComputeSchedule(s.spec).provision)
            && u.c.status == EmptyStatus && u.c.store == c.store
    ensures var j := JobOf(m, s, Unhindered("")).(now := Max(s.clock, ComputeSchedule(s.spec).provision));
            && Restored(j, s.c.store, c)
            && (forall slug :: slug in AllSlugs(c.status) ==> IsReady(c.store, DeploymentKey(m.ns, slug)))
  {
    hide Reconcile, Restored, FreshSlugs, ComputeSchedule, LockTime, Leftover, Tidy, AllSlugs, IsReady, ButForReadiness;
    var t := Max(s.clock, ComputeSchedule(s.spec).provision);
    var start := [Tick(t - s.clock), Reconciled(Unhindered(""), false)];
    var s1 := Apply(m, s, start[0]);
    var j := JobOf(m, s1, Unhindered(""));
    assert Vacant(m.ns, s.c.store);
    VacantIsFresh(j, "", s.c.store);
    NothingLeft(j, s.c.store);
    LostStatusRecovered(j, s1.c);
    var c1 := Reconcile(j, s1.c).c;
    var s2 := Apply(m, s1, start[1]);
    TwoSteps(m, s, start);
    var slugs := AllSlugs(c1.status);
    RunReadies(m, s2, slugs);
    ReadiesEditNothing(m.ns, slugs);
    var u := Run(m, s2, Readies(m.ns, slugs));
    steps := start + Readies(m.ns, slugs);
    RunAppend(m, s, start, Readies(m.ns, slugs));
    StillRestored(j, s.c.store, c1, u.c.store);
    c := c1.(store := u.c.store);
    InitialLinedUp(m, s);
    assert Tidy(m.x, m.ns, s1.c.store) by { LeftoverTidy(j, s.c.store); }
    assert LinedUp(m, s1) by { StepLinedUp(m, s, start[0]); }
    StepTidy(m, s1, start[1]);
    forall slug | slug in slugs ensures IsReady(u.c.store, DeploymentKey(m.ns, slug)) {
      MadeIsDeployment(j, s.c.store, c1, slug);
    }
  }

  lemma MadeIsDeployment(j: Job, s: Cluster, c: Ctx, slug: string)
    requires Restored(j, s, c) && Tidy(j.x, j.ns, c.store) && slug in AllSlugs(c.status)
    ensures Deploys(c.store, DeploymentKey(j.ns, slug))
  {
    hide AllSlugs, StudentRestored, SpareRestored, LabelledRight, Made;
    var k := DeploymentKey(j.ns, slug);
    assert SlugOf(k.name) == slug && InstanceKey(j.ns, k);
    assert Made(j.x, k, c.store[k]);
    MadeBody(j.x, k, c.store[k]);
  }

  lemma MadeBody(x: Ref, k: Key, o: Object)
    requires Made(x, k, o) && k.kind == DeploymentKind
    ensures o.body.DeploymentBody?
  {
    var template :| WellMade(x, template, k, o);
  }

  /** From admission of any exam with distinct ids a legal run leads, by a lost write, to a state in which
      nothing is recorded and a pass without failure enters Ready. */
  lemma AboutToEnter(m: Machine, s: State) returns (steps: seq<Step>)
    requires m.ns != "" && Initial(m, s) && DistinctIDs(s.spec)
    ensures Legal(m, s, steps) && (forall i :: 0 <= i < |steps| ==> !steps[i].Edit?)
    ensures var t := Run(m, s, steps);
            && t.spec == s.spec && t.clock == Max(s.clock, ComputeSchedule(s.spec).provision)
            && t.c.status == EmptyStatus && Tidy(m.x, m.ns, t.c.store) && LinedUp(m, t)
    ensures var t := Run(m, s, steps);
            var k := JobOf(m, t, Unhindered("z"));
            Restored(k, t.c.store, Reconcile(k, t.c).c) && Reconcile(k, t.c).c.status.phase == Ready
  {
    hide Reconcile, Restored, FreshSlugs, ComputeSchedule, LockTime, Leftover, Tidy, AllSlugs, IsReady, LinedUp, Run, Legal;
    var c;
    steps, c := Deployed(m, s);
    var t := Run(m, s, steps);
    var env := Unhindered("z");
    var j := JobOf(m, s, Unhindered("")).(now := t.clock);
    var k := JobOf(m, t, env);
    FreshOverFirst(j, s.c.store, c, k);
    ReachableRecovers(m, s, steps, env);
    InitialLinedUp(m, s);
    assert Tidy(m.x, m.ns, s.c.store) by { VacantIsTidy(m, s); }
    RunTidy(m, s, steps);
    RunLinedUp(m, s, steps);
    AllReadyAgain(j, s.c.store, c, k, Reconcile(k, t.c).c);
  }

  /** So it becomes Ready, at the provisioning time or at once if that is past, with every student's mail
      still to be sent. */
  lemma ReadyReached(m: Machine, s: State) returns (steps: seq<Step>)
    requires m.ns != "" && Initial(m, s) && DistinctIDs(s.spec)
    ensures Legal(m, s, steps) && (forall i :: 0 <= i < |steps| ==> !steps[i].Edit?)
    ensures var u := Run(m, s, steps);
            && AtReady(s, u) && u.clock == Max(s.clock, ComputeSchedule(s.spec).provision)
            && Gate.Provisioned(JobOf(m, u, Unhindered("")), u.c.status, u.c.store)
  {
    hide Reconcile, Restored, ComputeSchedule, LockTime, Tidy, AllSlugs, IsReady, LinedUp, Gate.Provisioned, Run, Legal;
    var before := AboutToEnter(m, s);
    var t := Run(m, s, before);
    var env := Unhindered("z");
    var k := JobOf(m, t, env);
    var d := Reconcile(k, t.c).c;
    steps := before + [Reconciled(env, true)];
    OneStep(m, t, Reconciled(env, true));
    RunAppend(m, s, before, [Reconciled(env, true)]);
    RestoredWaits(k, t.c.store, d);
    EarlyPass(k, t.c);
    EnteringReady(m, t, env);
    SameGate(k, JobOf(m, Run(m, s, steps), Unhindered("")), d);
  }

  lemma VacantIsTidy(m: Machine, s: State)
    requires Initial(m, s)
    ensures Tidy(m.x, m.ns, s.c.store)
  {
  }

  lemma FreshOverFirst(j: Job, s: Cluster, c: Ctx, k: Job)
    requires j.env == Unhindered("") && k.env == Unhindered("z") && j.ns == k.ns && Vacant(j.ns, s) && Restored(j, s, c)
    ensures FreshSlugs(k, c.store)
  {
    hide FreshSlugs, SlugFor, AllSlugs, StudentRestored, SpareRestored, LabelledRight;
    RestoredSlugs(j, s, c, "");
    OtherSaltIsFresh(k, c.store, c.status);
  }

  lemma RestoredWaits(j: Job, s: Cluster, c: Ctx)
    requires Restored(j, s, c)
    ensures |c.status.students| == |j.spec.students|
    ensures forall i :: 0 <= i < |c.status.students| ==> c.status.students[i].email == EmailPending
  {
    forall i | 0 <= i < |c.status.students| ensures c.status.students[i].email == EmailPending {
      assert StudentRestored(j, s, i, c.status.students[i]);
    }
  }

  lemma SameGate(j: Job, k: Job, c: Ctx)
    requires j.x == k.x && j.ns == k.ns && j.spec == k.spec
    ensures Gate.Provisioned(j, c.status, c.store) <==> Gate.Provisioned(k, c.status, c.store)
  {
    hide AllSlugs, IsReady;
    assert Owned(j, c.store, DeploymentKind) == Owned(k, c.store, DeploymentKind);
  }
}
