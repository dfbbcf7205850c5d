/** How one failure strands an exam in Provisioning: two runs after which a slug is recorded twice. */
module Stranded {
  import opened Prelude
  import opened ExamApi
  import opened Timetable
  import opened Webhook
  import opened Policy
  import opened Objects
  import opened Store
  import opened Oracle
  import opened Pass
  import opened System
  import opened Lifecycle
  import opened Alignment
  import opened Identity
  import opened Footprint
  import opened Tidiness
  import opened Gate
  import opened Recovery
  import opened Sharing
  import opened Taking
  import opened Completion

  const TWO_SPARES := Spec(
    Template("exam:1", "small", 8080),
    Schedule(10 * HOUR, 2 * HOUR, 1.0, 0, 0, None),
    [Student("s1", "s1@example.org")],
    Email(0, 0, "teacher@example.org", "exam@example.org", "Exam"),
    2)

  const HOST := Machine(Ref("algebra", "school"), "exam-algebra-0", Platform("example.org", ""))

  /** The exam is admitted just when provisioning is due. */
  function Admitted(): State {
    State(9 * HOUR, TWO_SPARES, Ctx(EmptyStatus, map[], [], {}))
  }

  /** One call is refused: the creation of the deployment of one spare. */
  ghost function Hampered(bad: nat): (env: Env)
    ensures env.Valid()
  {
    Unhindered("").(fault := site => if site == Make(SpareAt(bad), Workload) then Refused else NoFault)
  }

  ghost predicate IsHampered(j: Job, bad: nat) {
    j == Job(HOST.x, HOST.ns, HOST.platform, TWO_SPARES, 9 * HOUR, Hampered(bad))
  }

  const SAM := Entry("s1", "a")
  const FIRST := Entry("", "b")
  const SECOND := Entry("", "bx")
  const LOST := Entry("", "abx")

  lemma SlugsAre()
    ensures SlugFor("", StudentAt(0)) == "a" && SlugFor("", SpareAt(0)) == "b" && SlugFor("", SpareAt(1)) == "bx"
    ensures SlugFor("a", SpareAt(1)) == "abx"
  {
    assert "" + "a" + seq(0, _ => 'x') == "a" && "" + "b" + seq(0, _ => 'x') == "b" && "" + "b" + seq(1, _ => 'x') == "bx";
    assert "a" + "b" + seq(1, _ => 'x') == "abx";
  }

  // The deployments there are.

  /** The deployments of the namespace are the given ones, with the given labels. */
  ghost predicate Holds(s: Cluster, entries: seq<Entry>) {
    && (forall k: Key :: k in s && k.namespace == HOST.ns && k.kind == DeploymentKind ==>
          exists e :: 0 <= e < |entries| && k == DeploymentKey(HOST.ns, entries[e].slug))
    && forall e :: 0 <= e < |entries| ==>
         var k := DeploymentKey(HOST.ns, entries[e].slug);
         k in s && s[k].labels == Labels(HOST.x, entries[e].student, entries[e].slug)
  }

  lemma Held(s: Cluster, es: seq<Entry>, e: nat)
    requires Holds(s, es) && e < |es|
    ensures DeploymentKey(HOST.ns, es[e].slug) in s
    ensures Label(s, DeploymentKey(HOST.ns, es[e].slug), LabelSlug) == es[e].slug
    ensures HasLabel(s, DeploymentKey(HOST.ns, es[e].slug), LabelStudent) <==> es[e].student != ""
  {
    hide Labels;
    LabelsStudent(HOST.x, es[e].student, es[e].slug);
  }

  /** Making one more instance, with no call failing. */
  lemma InstanceHeld(j: Job, s: Cluster, es: seq<Entry>, who: Who, e: Entry)
    requires j.x == HOST.x && j.ns == HOST.ns && Holds(s, es)
    requires forall i :: 0 <= i < |InstanceObjects(j, who, e.student, e.slug)| ==>
               j.env.fault(InstanceObjects(j, who, e.student, e.slug)[i].site) == NoFault
    requires forall i :: 0 <= i < |es| ==> es[i].slug != e.slug
    ensures var r := ProvisionInstance(j, s, who, e.student, e.slug);
            !r.err && Holds(r.store, es + [e])
  {
    hide Deployment, Service, PolicyObject, CreateAll, Labels;
    var todo := InstanceObjects(j, who, e.student, e.slug);
    var t := CreateAll(s, todo, j.env).store;
    var fs := es + [e];
    FaultlessCreateAll(s, todo, j.env);
    DeploymentObject(j, e);
    var k := DeploymentKey(j.ns, e.slug);
    assert todo[0].key == k;
    assert k !in s;
    assert t[k] == todo[0].value by { assert k in t; OnlyFirst(todo, j, who, e, k); }
    forall o: Key | o in t && o.namespace == HOST.ns && o.kind == DeploymentKind
      ensures exists i :: 0 <= i < |fs| && o == DeploymentKey(HOST.ns, fs[i].slug)
    {
      if o in s {
        var i :| 0 <= i < |es| && o == DeploymentKey(HOST.ns, es[i].slug);
        assert fs[i] == es[i];
      } else {
        assert fs[|es|] == e;
      }
    }
    forall i | 0 <= i < |fs|
      ensures DeploymentKey(HOST.ns, fs[i].slug) in t
              && t[DeploymentKey(HOST.ns, fs[i].slug)].labels == Labels(HOST.x, fs[i].student, fs[i].slug)
    {
      if i < |es| {
        assert fs[i] == es[i];
      }
    }
  }

  lemma DeploymentObject(j: Job, e: Entry)
    ensures Deployment(j.x, j.spec, e.student, e.slug).labels == Labels(j.x, e.student, e.slug)
  {
  }

  lemma OnlyFirst(todo: seq<Creation>, j: Job, who: Who, e: Entry, k: Key)
    requires todo == InstanceObjects(j, who, e.student, e.slug) && k == DeploymentKey(j.ns, e.slug)
    ensures forall i :: 0 <= i < |todo| && todo[i].key == k ==> i == 0
  {
  }

  /** An instance that is there already is found complete again. */
  lemma InstanceStands(j: Job, s: Cluster, es: seq<Entry>, who: Who, e: nat)
    requires j.x == HOST.x && j.ns == HOST.ns && j.env.Calm() && Holds(s, es) && e < |es|
    ensures var r := ProvisionInstance(j, s, who, es[e].student, es[e].slug);
            !r.err && Holds(r.store, es)
  {
    hide ProvisionInstance, Labels;
    CalmInstance(j, s, who, es[e].student, es[e].slug);
    Held(s, es, e);
  }

  /** The spares found are the entries without student. */
  lemma SparesHeld(j: Job, s: Cluster, es: seq<Entry>, slug: string)
    requires j.x == HOST.x && j.ns == HOST.ns && Tidy(j.x, j.ns, s) && Holds(s, es)
    requires forall e :: 0 <= e < |es| ==> es[e].slug != ""
    ensures slug in SpareSet(j, s) <==> exists e :: 0 <= e < |es| && es[e].student == "" && es[e].slug == slug
  {
    hide Tidy, SpareSet, Made, Labels;
    if slug in SpareSet(j, s) {
      LeftoverSpare(j, s, slug);
      var e :| 0 <= e < |es| && DeploymentKey(HOST.ns, slug) == DeploymentKey(HOST.ns, es[e].slug);
      Held(s, es, e);
    }
    if e :| 0 <= e < |es| && es[e].student == "" && es[e].slug == slug {
      Held(s, es, e);
      NobodysIsSpare(j, s, slug);
    }
  }

  /** What is held for recorded entries is held through the clean-up. */
  lemma HeldThrough(j: Job, s: Cluster, st: Status, es: seq<Entry>)
    requires j.x == HOST.x && j.ns == HOST.ns && j.env.Valid() && Holds(s, es)
    requires forall e :: 0 <= e < |es| ==> es[e].slug != "" && es[e].slug in AllSlugs(st)
    ensures Holds(Cleanup(j, s, ValidSlugs(st)).store, es)
  {
    hide Cleanup, Labels, CleanupKind, ValidSlugs, AllSlugs;
    var valid := ValidSlugs(st);
    ValidAmongAll(st);
    CleanupShrinks(j, s, valid);
    forall e | 0 <= e < |es| ensures DeploymentKey(HOST.ns, es[e].slug) in Cleanup(j, s, valid).store {
      Held(s, es, e);
      CleanupKeeps(j, s, valid, DeploymentKey(HOST.ns, es[e].slug));
    }
  }

  // The hampered pass.

  lemma SamFound(j: Job, bad: nat, c: Ctx)
    requires IsHampered(j, bad) && c.status.students == [] && Holds(c.store, [])
    ensures FindStudentSlug(j, c, 0) == Some("a")
  {
    SlugsAre();
    var items := j.env.order(Lookup(StudentAt(0)), StudentDeployments(j, c.store, "s1"));
    assert StudentDeployments(j, c.store, "s1") == {};
    assert Enumerates(items, {});
    EnumerationSize(items, {});
  }

  /** With fewer spares there than slots before it, a slot gets a fresh slug. */
  lemma SpareFresh(j: Job, bad: nat, c: Ctx, i: nat, es: seq<Entry>)
    requires IsHampered(j, bad) && Holds(c.store, es) && i >= |c.status.spares|
    requires (es == [SAM]) || (i >= 1 && es == [SAM, FIRST])
    ensures FindSpareSlug(j, c, i) == Some(SlugFor("", SpareAt(i)))
  {
    hide Labels, SlugFor, SortStrings, SpareSlugs, Holds, Owned;
    var owned := Owned(j, c.store, DeploymentKind);
    var items := j.env.order(Lookup(SpareAt(i)), owned);
    assert Enumerates(items, owned);
    var found := SpareSlugs(c.store, items);
    AtMostOneListed(j, c, i, es, items, found);
    assert |SortStrings(found)| == |multiset(SortStrings(found))| == |multiset(found)| == |found|;
  }

  lemma AtMostOneListed(j: Job, c: Ctx, i: nat, es: seq<Entry>, items: seq<Key>, found: seq<string>)
    requires j.x == HOST.x && j.ns == HOST.ns && Holds(c.store, es) && (es == [SAM] || (i >= 1 && es == [SAM, FIRST]))
    requires Enumerates(items, Owned(j, c.store, DeploymentKind)) && found == SpareSlugs(c.store, items)
    ensures |found| <= i
  {
    hide Labels, Selects, IsSpare, Label;
    forall a, b | a in items && b in items && Label(c.store, a, LabelSlug) == Label(c.store, b, LabelSlug) ensures a == b {
      KeyOfLabel(j, c.store, es, a);
      KeyOfLabel(j, c.store, es, b);
    }
    SpareSlugsList(c.store, items);
    forall e | e in Elements(found) ensures i >= 1 && e == "b" {
      var k :| k in items && IsSpare(c.store, k) && Label(c.store, k, LabelSlug) == e;
      KeyOfLabel(j, c.store, es, k);
      SpareIsFirst(j, c.store, es, k);
    }
    Pigeonhole(found);
    if i == 0 {
      assert Elements(found) == {};
    } else {
      SubsetCardinality(Elements(found), {"b"});
    }
  }

  lemma KeyOfLabel(j: Job, s: Cluster, es: seq<Entry>, k: Key)
    requires j.x == HOST.x && j.ns == HOST.ns && Holds(s, es) && k in Owned(j, s, DeploymentKind)
    ensures k == DeploymentKey(HOST.ns, Label(s, k, LabelSlug))
  {
    hide Labels, Selects;
    var e :| 0 <= e < |es| && k == DeploymentKey(HOST.ns, es[e].slug);
    Held(s, es, e);
  }

  lemma SpareIsFirst(j: Job, s: Cluster, es: seq<Entry>, k: Key)
    requires j.x == HOST.x && j.ns == HOST.ns && Holds(s, es) && k in Owned(j, s, DeploymentKind) && IsSpare(s, k)
    requires es == [SAM] || es == [SAM, FIRST]
    ensures es == [SAM, FIRST] && Label(s, k, LabelSlug) == "b"
  {
    hide Labels, Selects;
    var e :| 0 <= e < |es| && k == DeploymentKey(HOST.ns, es[e].slug);
    Held(s, es, e);
    assert es[0] == SAM;
  }

  lemma Refusal(j: Job, bad: nat, s: Cluster, slug: string)
    requires IsHampered(j, bad)
    ensures ProvisionInstance(j, s, SpareAt(bad), "", slug) == Reply(s, true)
  {
    hide Deployment, Service, PolicyObject;
  }

  lemma HamperedFaults(j: Job, bad: nat, who: Who, e: Entry)
    requires IsHampered(j, bad) && who != SpareAt(bad)
    ensures forall i :: 0 <= i < |InstanceObjects(j, who, e.student, e.slug)| ==>
              j.env.fault(InstanceObjects(j, who, e.student, e.slug)[i].site) == NoFault
  {
    hide Deployment, Service, PolicyObject;
  }

  /** What the loops record: the student, and the spare that was not refused, in its own slot. */
  function HalfSpares(j: Job, bad: nat): seq<SpareStatus> {
    if bad == 0 then [BlankSpare, SpareEntry(j, "bx", InstancePhase.Provisioned)]
    else [SpareEntry(j, "b", InstancePhase.Provisioned)]
  }

  function HalfHeld(bad: nat): seq<Entry> {
    if bad == 0 then [SAM, SECOND] else [SAM, FIRST]
  }

  lemma StudentLoop(j: Job, bad: nat, c: Ctx)
    requires IsHampered(j, bad) && c.status.students == [] && Holds(c.store, [])
    ensures var r := ProvisionStudents(j, c, 0, true);
            && !r.err && r.healthy && Holds(r.c.store, [SAM]) && r.c.status.spares == c.status.spares
            && r.c.status.students == [StudentEntry(j, 0, "a", InstancePhase.Provisioned)]
  {
    hide ProvisionInstance, FindStudentSlug, Holds, InstanceURL;
    SamFound(j, bad, c);
    HamperedFaults(j, bad, StudentAt(0), SAM);
    InstanceHeld(j, c.store, [], StudentAt(0), SAM);
    assert [] + [SAM] == [SAM];
    var d := ProvisionStudent(j, c, 0, "a");
    assert ProvisionStudents(j, d, 1, true) == Progress(d, true, false);
  }

  lemma SpareLoop(j: Job, bad: nat, c: Ctx)
    requires IsHampered(j, bad) && bad < 2 && c.status.spares == [] && Holds(c.store, [SAM])
    ensures var r := ProvisionSpares(j, c, 0, true);
            && !r.err && !r.healthy && Holds(r.c.store, HalfHeld(bad)) && r.c.status.students == c.status.students
            && r.c.status.spares == HalfSpares(j, bad)
  {
    hide ProvisionInstance, FindSpareSlug, Holds, InstanceURL, SlugFor;
    SlugsAre();
    SpareFresh(j, bad, c, 0, [SAM]);
    if bad == 0 {
      Refusal(j, bad, c.store, "b");
      assert ProvisionSpare(j, c, 0, "b") == c;
      SpareFresh(j, bad, c, 1, [SAM]);
      HamperedFaults(j, bad, SpareAt(1), SECOND);
      InstanceHeld(j, c.store, [SAM], SpareAt(1), SECOND) by { assert [SAM][0].slug != SECOND.slug; }
      assert [SAM] + [SECOND] == [SAM, SECOND];
      var e := ProvisionSpare(j, c, 1, "bx");
      assert e.status.spares == HalfSpares(j, bad);
      assert ProvisionSpares(j, e, 2, false) == Progress(e, false, false);
      assert ProvisionSpares(j, c, 1, false) == ProvisionSpares(j, e, 2, false);
    } else {
      HamperedFaults(j, bad, SpareAt(0), FIRST);
      InstanceHeld(j, c.store, [SAM], SpareAt(0), FIRST) by { assert [SAM][0].slug != FIRST.slug; }
      assert [SAM] + [FIRST] == [SAM, FIRST];
      var d := ProvisionSpare(j, c, 0, "b");
      assert d.status.spares == HalfSpares(j, bad);
      SpareFresh(j, bad, d, 1, [SAM, FIRST]);
      Refusal(j, bad, d.store, "bx");
      assert ProvisionSpare(j, d, 1, "bx") == d;
      assert ProvisionSpares(j, d, 2, false) == Progress(d, false, false);
      assert ProvisionSpares(j, d, 1, true) == ProvisionSpares(j, d, 2, false);
    }
  }

  lemma TooFew(j: Job, s: Cluster, bad: nat)
    requires IsHampered(j, bad) && Holds(s, HalfHeld(bad))
    ensures !AllInstancesHealthy(j, s)
  {
    hide Labels, Selects;
    var es := HalfHeld(bad);
    var both := {DeploymentKey(HOST.ns, es[0].slug), DeploymentKey(HOST.ns, es[1].slug)};
    forall k | k in Owned(j, s, DeploymentKind) ensures k in both {
      var e :| 0 <= e < 2 && k == DeploymentKey(HOST.ns, es[e].slug);
    }
    SubsetCardinality(Owned(j, s, DeploymentKind), both);
    assert |both| <= 2;
  }

  lemma HamperedProvisioning(j: Job, bad: nat, c: Ctx)
    requires IsHampered(j, bad) && bad < 2 && c.status.students == [] && c.status.spares == [] && c.store == map[]
    requires c.status.phase == Phase.Provisioning
    ensures var o := ReconcileProvisioning(j, c).c;
            && o.status.phase == Phase.Provisioning && Holds(o.store, HalfHeld(bad))
            && o.status.students == [StudentEntry(j, 0, "a", InstancePhase.Provisioned)]
            && o.status.spares == HalfSpares(j, bad)
  {
    hide ProvisionStudents, ProvisionSpares, Cleanup, AllInstancesHealthy, NamespaceObject, ValidSlugs, InstanceURL, Labels;
    assert j.env.fault(NamespaceCreate) == NoFault;
    var made := Create(c.store, NamespaceKey(j.ns), NamespaceObject(j.x), j.env.fault(NamespaceCreate));
    var c0 := c.(store := made.store);
    assert Holds(c0.store, []);
    StudentsKeepPhase(j, c0, 0, true);
    StudentLoop(j, bad, c0);
    var students := ProvisionStudents(j, c0, 0, true);
    SparesKeepPhase(j, students.c, 0, true);
    SpareLoop(j, bad, students.c);
    var d := ProvisionSpares(j, students.c, 0, true).c;
    var marked := d.(status := AddCondition(d.status, ProvisioningDegraded));
    HalfSlugs(marked.status, bad, j);
    HeldThrough(j, marked.store, marked.status, HalfHeld(bad));
    TooFew(j, Cleanup(j, marked.store, ValidSlugs(marked.status)).store, bad);
  }

  lemma HalfSlugs(st: Status, bad: nat, j: Job)
    requires |st.students| == 1 && st.students[0].slug == "a" && st.spares == HalfSpares(j, bad)
    ensures AllSlugs(st) == if bad == 0 then ["a", "", "bx"] else ["a", "b"]
    ensures forall e :: 0 <= e < |HalfHeld(bad)| ==> HalfHeld(bad)[e].slug != "" && HalfHeld(bad)[e].slug in AllSlugs(st)
    ensures !Shares(st)
  {
    hide InstanceURL;
    var all := if bad == 0 then ["a", "", "bx"] else ["a", "b"];
    assert AllSlugs(st) == all;
    assert all[0] == "a" && (bad == 0 ==> all[2] == "bx") && (bad != 0 ==> all[1] == "b");
  }

  lemma Due()
    ensures ComputeSchedule(TWO_SPARES).provision == 9 * HOUR && ValidSpec(TWO_SPARES)
  {
  }

  lemma AdmittedIsInitial()
    ensures Initial(HOST, Admitted()) && DistinctIDs(TWO_SPARES)
    ensures LinedUp(HOST, Admitted()) && OnTime(Admitted()) && Tidy(HOST.x, HOST.ns, Admitted().c.store)
  {
    hide LockTime;
    Due();
    InitialLinedUp(HOST, Admitted());
  }

  /** What the exam is after its first pass. */
  ghost predicate HalfDone(t: State, bad: nat) {
    && HalfRecorded(HOST, t) && t.spec == TWO_SPARES && t.clock == 9 * HOUR && !Shares(t.c.status)
    && |t.c.status.students| == 1 && t.c.status.students[0].slug == "a"
    && t.c.status.spares == HalfSpares(JobOf(HOST, t, Hampered(bad)), bad)
  }

  lemma AfterHampered(bad: nat) returns (t: State)
    requires bad < 2
    ensures t == Apply(HOST, Admitted(), Reconciled(Hampered(bad), true))
    ensures HalfDone(t, bad) && Holds(t.c.store, HalfHeld(bad))
  {
    hide Reconcile, ReconcileProvisioning, Holds, Shares, LockTime, Tidy, LinedUp, ValidSpec, InstanceURL, Hampered,
         ComputeSchedule, Summarize, HalfSpares, AllSlugs;
    AdmittedIsInitial();
    var s, step := Admitted(), Reconciled(Hampered(bad), true);
    t := Apply(HOST, s, step);
    var j := JobOf(HOST, s, Hampered(bad));
    assert ComputeSchedule(TWO_SPARES).provision == 9 * HOUR by { Due(); }
    StartsProvisioning(j, s.c);
    HamperedProvisioning(j, bad, Begin(j, s.c));
    HalfSlugs(t.c.status, bad, j);
    StepLinedUp(HOST, s, step);
    StepOnTime(HOST, s, step);
    StepTidy(HOST, s, step);
  }

  // What the next entry takes.

  lemma FreshHere(t: State, salt: string, es: seq<Entry>)
    requires Holds(t.c.store, es) && salt != ""
    requires forall e :: 0 <= e < |es| ==> es[e].slug != "" && (es[e].slug[0] != salt[0] || |es[e].slug| < 2)
    requires forall slug :: slug in AllSlugs(t.c.status) ==> slug == "" || slug[0] != salt[0] || |slug| < 2
    ensures FreshLeft(JobOf(HOST, t, Unhindered(salt)), t.c.status, t.c.store, 0, 0)
  {
    hide Labels, AllSlugs;
    var j := JobOf(HOST, t, Unhindered(salt));
    forall p, q | j.env.slug(p) == j.env.slug(q) ensures p == q {
      SlugsDiffer(salt, p, q);
    }
    forall who ensures j.env.slug(who).value !in AllSlugs(t.c.status) && DeploymentKey(j.ns, j.env.slug(who).value) !in t.c.store {
      var slug := j.env.slug(who).value;
      assert slug[0] == salt[0] && |slug| >= 2;
    }
  }

  lemma TakesAt(j: Job, t: State, p: nat, found: seq<string>)
    requires j.spec == TWO_SPARES && p < 2 && p < |found| && Unfilled(t.c.status, p) && found[p] in AllSlugs(t.c.status)
    requires NoDup(found) && Sorted(found) && Seen(j, t.c.status, t.c.store, p) == Elements(found)
    ensures Takes(j, t.c.status, t.c.store)
  {
    hide Seen, AllSlugs;
    SameAscending(found, Seen(j, t.c.status, t.c.store, p));
    assert SpareTakesAt(j, t.c.status, t.c.store, p);
  }

  /** The blank slot takes the slug of the spare recorded after it. */
  lemma BlankTakes(j: Job, t: State)
    requires j == JobOf(HOST, t, j.env) && HalfDone(t, 0) && Holds(t.c.store, HalfHeld(0))
    ensures Takes(j, t.c.status, t.c.store)
  {
    hide Tidy, SpareSet, Holds, Made, LinedUp, LockTime, Shares, InstanceURL;
    assert Tidy(HOST.x, HOST.ns, t.c.store);
    HalfSlugs(t.c.status, 0, JobOf(HOST, t, Hampered(0)));
    forall slug ensures slug in Seen(j, t.c.status, t.c.store, 0) <==> slug in ["bx"] {
      SparesHeld(j, t.c.store, HalfHeld(0), slug);
      assert HalfHeld(0)[1] == SECOND && HalfHeld(0)[0] == SAM;
    }
    assert ["a", "", "bx"][2] == "bx";
    TakesAt(j, t, 0, ["bx"]);
  }

  /** The slot beyond the list takes the slug recorded before it, because a lost pass left a smaller one. */
  lemma BeyondTakes(j: Job, t: State)
    requires j == JobOf(HOST, t, j.env) && HalfDone(t, 1) && Holds(t.c.store, [SAM, FIRST, LOST])
    ensures Takes(j, t.c.status, t.c.store)
  {
    hide Tidy, SpareSet, Holds, Made, LinedUp, LockTime, Shares, InstanceURL;
    assert Tidy(HOST.x, HOST.ns, t.c.store);
    var es, found := [SAM, FIRST, LOST], ["abx", "b"];
    HalfSlugs(t.c.status, 1, JobOf(HOST, t, Hampered(1)));
    assert es[0] == SAM && es[1] == FIRST && es[2] == LOST && found[0] == "abx" && found[1] == "b";
    Held(t.c.store, es, 1);
    forall slug ensures slug in Seen(j, t.c.status, t.c.store, 1) <==> slug in found {
      SparesHeld(j, t.c.store, es, slug);
    }
    assert AtMost("abx", "b");
    assert ["a", "b"][1] == "b";
    TakesAt(j, t, 1, found);
  }

  // The first run.

  /** One creation is refused in the first pass, and nothing fails in the second. */
  ghost function RefusedOnce(): seq<Step> {
    [Reconciled(Hampered(0), true), Reconciled(Unhindered("z"), true)]
  }

  /** From there on the exam is Ready in no state of any run whose deployment clean-ups succeed. */
  ghost predicate StrandedAt(u: State, steps: seq<Step>) {
    Legal(HOST, u, steps)
    && (forall i :: 0 <= i < |steps| && steps[i].Reconciled? ==> DeploymentCleanupSucceeds(steps[i].env)) ==>
      Rank(Run(HOST, u, steps).c.status.phase) < 2
  }

  lemma TakenHere(t: State, steps: seq<Step>)
    requires HalfRecorded(HOST, t)
    requires FreshLeft(JobOf(HOST, t, Unhindered("z")), t.c.status, t.c.store, 0, 0)
    requires Takes(JobOf(HOST, t, Unhindered("z")), t.c.status, t.c.store)
    ensures var u := Apply(HOST, t, Reconciled(Unhindered("z"), true)); Shares(u.c.status) && StrandedAt(u, steps)
  {
    hide AfterPass, FreshLeft, Takes, Shares, Run, Legal, Unhindered, HalfRecorded, DeploymentCleanupSucceeds;
    CleanPassSharesIff(HOST, t, Unhindered("z"));
    TakenSlugStrands(HOST, t, Unhindered("z"), steps);
  }

  /** An exam of one student and two spares is admitted; the creation of the first spare is refused in its
      first pass; nothing else ever fails. The next pass records the second spare's slug for the first
      slot too, and the exam is stranded. */
  lemma OneRefusalStrands(steps: seq<Step>)
    ensures Initial(HOST, Admitted()) && DistinctIDs(TWO_SPARES) && Legal(HOST, Admitted(), RefusedOnce())
    ensures var u := Run(HOST, Admitted(), RefusedOnce()); Shares(u.c.status) && StrandedAt(u, steps)
  {
    hide AfterPass, FreshLeft, Takes, Shares, Run, Legal, Hampered, Unhindered, HalfRecorded, Admitted, Holds, AllSlugs,
         StrandedAt, HalfSpares;
    AdmittedIsInitial();
    var t := AfterHampered(0);
    assert Legal(HOST, Admitted(), RefusedOnce()) by { RefusedOnceLegal(); }
    TwoSteps(HOST, Admitted(), RefusedOnce());
    HalfSlugs(t.c.status, 0, JobOf(HOST, t, Hampered(0)));
    FreshHere(t, "z", HalfHeld(0)) by { HalfFirst(0); }
    BlankTakes(JobOf(HOST, t, Unhindered("z")), t);
    TakenHere(t, steps);
  }

  lemma RefusedOnceLegal()
    ensures Legal(HOST, Admitted(), RefusedOnce())
  {
    hide Apply, Hampered, Unhindered;
    TwoSteps(HOST, Admitted(), RefusedOnce());
  }

  lemma HalfFirst(bad: nat)
    ensures |HalfHeld(bad)| == 2
    ensures HalfHeld(bad)[0] == SAM && HalfHeld(bad)[1] == if bad == 0 then SECOND else FIRST
  {
  }

  // The second run.

  /** One creation is refused in the first pass, the second loses its status write, and nothing fails in
      the third. */
  ghost function LosesWrite(): seq<Step> {
    [Reconciled(Hampered(1), true), Reconciled(Unhindered("a"), false), Reconciled(Unhindered("z"), true)]
  }

  lemma SeenOnlyFirst(j: Job, c: Ctx)
    requires Ordinary(j) && j.x == HOST.x && j.ns == HOST.ns && Tidy(j.x, j.ns, c.store) && Holds(c.store, [SAM, FIRST])
    requires FilledTo(j, c, 1) && c.status.spares[0].slug == "b"
    ensures |Ascending(Seen(j, c.status, c.store, 1))| == 1
  {
    hide Tidy, SpareSet, Holds, Made, Ascending;
    var es := [SAM, FIRST];
    assert es[0] == SAM && es[1] == FIRST;
    forall slug ensures slug in Seen(j, c.status, c.store, 1) <==> slug == "b" {
      SparesHeld(j, c.store, es, slug);
      Held(c.store, es, 1);
    }
    assert Seen(j, c.status, c.store, 1) == {"b"};
  }

  lemma SaltedSlug(j: Job, who: Who)
    requires j.env == Unhindered("a")
    ensures j.env.slug(who) == Some(SlugFor("a", who))
  {
  }

  lemma HandParts(j: Job, c: Ctx)
    requires InHand(j, c, 0, 0)
    ensures GoodLists(j.platform.domain, j.spec, c.status) && Tidy(j.x, j.ns, c.store)
  {
  }

  lemma TidyInstance(j: Job, s: Cluster, who: Who, student: string, slug: string)
    requires Tidy(j.x, j.ns, s) && slug != ""
    ensures Tidy(j.x, j.ns, ProvisionInstance(j, s, who, student, slug).store)
  {
    hide Made, Changes, ProvisionInstance;
    InstanceChanges(j, s, who, student, slug);
    ChangesTidy(j.x, j.ns, j.spec.template, false, s, ProvisionInstance(j, s, who, student, slug).store);
  }

  /** The second pass finds what is recorded, and makes another spare under a slug that sorts first. */
  lemma SecondLoops(j: Job, c: Ctx)
    requires j.x == HOST.x && j.ns == HOST.ns && j.spec == TWO_SPARES && j.env == Unhindered("a") && Ordinary(j)
    requires InHand(j, c, 0, 0) && |c.status.students| == 1 && c.status.students[0].slug == "a"
    requires |c.status.spares| == 1 && c.status.spares[0].slug == "b" && Holds(c.store, [SAM, FIRST])
    ensures var students := ProvisionStudents(j, c, 0, true);
            var spares := ProvisionSpares(j, students.c, 0, students.healthy);
            && !students.err && !spares.err && Holds(spares.c.store, [SAM, FIRST, LOST])
            && |spares.c.status.students| == 1 && spares.c.status.students[0].slug == "a"
            && |spares.c.status.spares| == 2 && spares.c.status.spares[0].slug == "b" && spares.c.status.spares[1].slug == "abx"
  {
    hide ProvisionInstance, FindSpareSlug, FindStudentSlug, Holds, InstanceURL, SlugFor, InHand, Seen, Unhindered, Tidy,
         Ascending, GoodLists, FreshLeft, Shares;
    assert GoodLists(j.platform.domain, j.spec, c.status) && Tidy(j.x, j.ns, c.store) by { HandParts(j, c); }
    var es := [SAM, FIRST];
    StudentNext(j, c, 0);
    InstanceStands(j, c.store, es, StudentAt(0), 0);
    TidyInstance(j, c.store, StudentAt(0), "s1", "a");
    var d := ProvisionStudent(j, c, 0, "a");
    assert ProvisionStudents(j, d, 1, true) == Progress(d, true, false);
    SpareNext(j, d, 0);
    InstanceStands(j, d.store, es, SpareAt(0), 1);
    TidyInstance(j, d.store, SpareAt(0), "", "b");
    var e := ProvisionSpare(j, d, 0, "b");
    assert FilledTo(j, e, 1) by { Held(e.store, es, 1); }
    SeenOnlyFirst(j, e);
    SpareNext(j, e, 1);
    SlugsAre();
    assert j.env.slug(SpareAt(1)) == Some("abx") by { SaltedSlug(j, SpareAt(1)); }
    assert forall i :: 0 <= i < 2 ==> es[i].slug != LOST.slug;
    InstanceHeld(j, e.store, es, SpareAt(1), LOST);
    assert es + [LOST] == [SAM, FIRST, LOST];
    var f := ProvisionSpare(j, e, 1, "abx");
    assert ProvisionSpares(j, f, 2, true) == Progress(f, true, false);
    assert ProvisionSpares(j, e, 1, true) == ProvisionSpares(j, f, 2, true);
  }

  lemma ThreeSlugs(st: Status)
    requires |st.students| == 1 && st.students[0].slug == "a"
    requires |st.spares| == 2 && st.spares[0].slug == "b" && st.spares[1].slug == "abx"
    ensures AllSlugs(st) == ["a", "b", "abx"]
    ensures forall e :: 0 <= e < 3 ==> [SAM, FIRST, LOST][e].slug != "" && [SAM, FIRST, LOST][e].slug in AllSlugs(st)
  {
    var all, es := ["a", "b", "abx"], [SAM, FIRST, LOST];
    assert AllSlugs(st) == all;
    assert forall e :: 0 <= e < 3 ==> all[e] == es[e].slug;
  }

  lemma SettleHolds(j: Job, d: Ctx, healthy: bool, es: seq<Entry>)
    requires j.x == HOST.x && j.ns == HOST.ns && j.env.Valid() && Holds(d.store, es)
    requires forall e :: 0 <= e < |es| ==> es[e].slug != "" && es[e].slug in AllSlugs(d.status)
    ensures Holds(Settle(j, d, healthy).c.store, es)
  {
    hide Holds, Cleanup, AllInstancesHealthy, ValidSlugs, SpareURLsOf;
    var marked := if healthy then d else d.(status := AddCondition(d.status, ProvisioningDegraded));
    assert AllSlugs(marked.status) == AllSlugs(d.status);
    HeldThrough(j, marked.store, marked.status, es);
  }

  lemma NamespaceHolds(s: Cluster, t: Cluster, es: seq<Entry>)
    requires Holds(s, es) && (t == s || t == s[NamespaceKey(HOST.ns) := NamespaceObject(HOST.x)])
    ensures Holds(t, es)
  {
    hide NamespaceObject, Labels;
  }

  lemma SecondProvisioning(j: Job, c: Ctx)
    requires j.x == HOST.x && j.ns == HOST.ns && j.spec == TWO_SPARES && j.env == Unhindered("a") && Ordinary(j)
    requires GoodLists(j.platform.domain, j.spec, c.status) && Tidy(j.x, j.ns, c.store) && !Shares(c.status)
    requires FreshLeft(j, c.status, c.store, 0, 0)
    requires |c.status.students| == 1 && c.status.students[0].slug == "a"
    requires |c.status.spares| == 1 && c.status.spares[0].slug == "b" && Holds(c.store, [SAM, FIRST])
    ensures Holds(ReconcileProvisioning(j, c).c.store, [SAM, FIRST, LOST])
  {
    hide ProvisionStudents, ProvisionSpares, Settle, Holds, Tidy, Shares, FreshLeft, GoodLists, NamespaceObject, Takes,
         Unhindered, AllSlugs;
    var made := Create(c.store, NamespaceKey(j.ns), NamespaceObject(j.x), j.env.fault(NamespaceCreate));
    var c0 := c.(store := made.store);
    NamespacePlaysNoPart(j, c.status, c.store, c0.store);
    NamespaceHolds(c.store, c0.store, [SAM, FIRST]);
    SecondLoops(j, c0);
    var students := ProvisionStudents(j, c0, 0, true);
    var spares := ProvisionSpares(j, students.c, 0, students.healthy);
    ThreeSlugs(spares.c.status);
    SettleHolds(j, spares.c, spares.healthy, [SAM, FIRST, LOST]);
  }

  lemma FreshForSecond(t: State)
    requires HalfDone(t, 1) && Holds(t.c.store, [SAM, FIRST])
    ensures FreshLeft(JobOf(HOST, t, Unhindered("a")), t.c.status, t.c.store, 0, 0)
  {
    hide Holds, Shares, LinedUp, InstanceURL, FreshLeft, AllSlugs, HalfRecorded, Unhindered;
    HalfSlugs(t.c.status, 1, JobOf(HOST, t, Hampered(1)));
    HalfFirst(1);
    var es := HalfHeld(1);
    assert es == [SAM, FIRST];
    FreshHere(t, "a", es);
  }

  lemma LostKeepsHalf(t: State, step: Step)
    requires HalfRecorded(HOST, t) && Enabled(HOST, t, step) && step.Reconciled? && !step.saved
    ensures HalfRecorded(HOST, Apply(HOST, t, step)) && Apply(HOST, t, step).c.status == t.c.status
  {
    hide Reconcile, LockTime, Tidy, LinedUp;
    StepLinedUp(HOST, t, step);
    StepOnTime(HOST, t, step);
    StepTidy(HOST, t, step);
  }

  lemma AfterLost(t: State) returns (u: State)
    requires HalfDone(t, 1) && Holds(t.c.store, [SAM, FIRST])
    ensures u == Apply(HOST, t, Reconciled(Unhindered("a"), false))
    ensures HalfDone(u, 1) && Holds(u.c.store, [SAM, FIRST, LOST]) && u.c.status == t.c.status
  {
    hide ReconcileProvisioning, Holds, Shares, Tidy, LinedUp, InstanceURL, Begin, Finish, Reconcile, HalfSpares,
         FreshLeft, AllSlugs, Unhindered, GoodLists, HalfRecorded;
    var step := Reconciled(Unhindered("a"), false);
    u := Apply(HOST, t, step);
    var j := JobOf(HOST, t, Unhindered("a"));
    var b := Begin(j, t.c);
    assert HalfRecorded(HOST, t) && t.c.status.phase == Phase.Provisioning && Tidy(HOST.x, HOST.ns, t.c.store) by { hide *; Parts(t); }
    ProvisioningStays(j, t.c);
    FreshForSecond(t);
    SameListsSameHand(j, t.c.status, b.status, t.c.store);
    assert GoodLists(j.platform.domain, j.spec, b.status) by { hide *; Parts(t); LinedUpIsGood(t, j, b); }
    SecondProvisioning(j, b) by { FirstSpare(t); }
    FinishHolds(j, ReconcileProvisioning(j, b).c, [SAM, FIRST, LOST]);
    LostKeepsHalf(t, step);
  }

  lemma Parts(t: State)
    requires HalfRecorded(HOST, t)
    ensures t.c.status.phase == Phase.Provisioning && Tidy(HOST.x, HOST.ns, t.c.store) && LinedUp(HOST, t)
  {
  }

  lemma FirstSpare(t: State)
    requires HalfDone(t, 1)
    ensures |t.c.status.spares| == 1 && t.c.status.spares[0].slug == "b"
  {
    hide InstanceURL, HalfRecorded;
  }

  lemma FinishHolds(j: Job, c: Ctx, es: seq<Entry>)
    requires Holds(c.store, es)
    ensures Holds(Finish(j, c).store, es)
  {
    hide Holds;
  }

  lemma LinedUpIsGood(t: State, j: Job, b: Ctx)
    requires LinedUp(HOST, t) && j == JobOf(HOST, t, j.env) && b.status.students == t.c.status.students && b.status.spares == t.c.status.spares
    ensures GoodLists(j.platform.domain, j.spec, b.status)
  {
  }

  lemma LosesWriteLegal()
    ensures Legal(HOST, Admitted(), LosesWrite())
  {
    hide Apply, Hampered, Unhindered;
    var steps := LosesWrite();
    TwoSteps(HOST, Apply(HOST, Admitted(), steps[0]), steps[1..]);
  }

  lemma TwoPasses() returns (t: State)
    ensures t == Run(HOST, Admitted(), LosesWrite()[..2])
    ensures Run(HOST, Admitted(), LosesWrite()) == Apply(HOST, t, Reconciled(Unhindered("z"), true))
    ensures HalfDone(t, 1) && Holds(t.c.store, [SAM, FIRST, LOST])
  {
    hide Apply, Run, Hampered, Unhindered, HalfDone, Holds, Admitted;
    var run := LosesWrite();
    HalfFirst(1);
    assert HalfHeld(1) == [SAM, FIRST];
    var s := AfterHampered(1);
    t := AfterLost(s);
    TwoSteps(HOST, Admitted(), run[..2]);
    RunThree(HOST, Admitted(), run[0], run[1], run[2]);
  }

  lemma FreshForThird(t: State)
    requires HalfDone(t, 1) && Holds(t.c.store, [SAM, FIRST, LOST])
    ensures FreshLeft(JobOf(HOST, t, Unhindered("z")), t.c.status, t.c.store, 0, 0)
    ensures !Shares(t.c.status) && AllSlugs(t.c.status) == ["a", "b"]
  {
    hide Holds, Shares, LinedUp, InstanceURL, FreshLeft, AllSlugs, HalfRecorded, Unhindered;
    HalfSlugs(t.c.status, 1, JobOf(HOST, t, Hampered(1)));
    FreshHere(t, "z", [SAM, FIRST, LOST]);
  }

  /** The same exam: the creation of the second spare is refused in its first pass, and the second pass
      makes that spare but loses its status write. Every slot that is recorded then has a slug, and no two
      have the same; and still the third pass, in which nothing fails, gives the second spare the slug of
      the first, since the slug that was lost sorts before it. */
  lemma LostWriteStrands(steps: seq<Step>)
    ensures Initial(HOST, Admitted()) && DistinctIDs(TWO_SPARES) && Legal(HOST, Admitted(), LosesWrite())
    ensures var t := Run(HOST, Admitted(), LosesWrite()[..2]); !Shares(t.c.status) && "" !in AllSlugs(t.c.status)
    ensures var u := Run(HOST, Admitted(), LosesWrite()); Shares(u.c.status) && StrandedAt(u, steps)
  {
    hide Apply, FreshLeft, Takes, Shares, Run, Legal, Hampered, Unhindered, HalfRecorded, Admitted, Holds, AllSlugs,
         StrandedAt, HalfSpares;
    AdmittedIsInitial();
    LosesWriteLegal();
    var t := TwoPasses();
    FreshForThird(t);
    BeyondTakes(JobOf(HOST, t, Unhindered("z")), t);
    TakenHere(t, steps);
  }
}
