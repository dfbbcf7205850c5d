/** Recovery: from a lost status and whatever objects are left, one clean pass restores one instance
    per student and spare, reusing every slug it can, and nothing else. */
module Recovery {
  import opened Prelude
  import opened ExamApi
  import opened Timetable
  import opened Policy
  import opened Objects
  import opened Store
  import opened Oracle
  import opened Pass
  import opened Lifecycle
  import opened Footprint
  import opened Interference
  import opened Tidiness
  import opened Access
  import opened Gate

  ghost predicate DistinctIDs(spec: Spec) {
    && (forall i :: 0 <= i < |spec.students| ==> spec.students[i].id != "")
    && forall i, k :: 0 <= i < k < |spec.students| ==> spec.students[i].id != spec.students[k].id
  }

  /** What a crash before unlock can leave behind: objects of the exam, each for some slug. */
  ghost predicate Leftover(j: Job, s: Cluster) {
    && Tidy(j.x, j.ns, s) && NoAccess(j.ns, s)
    && forall k :: k in s && k.namespace == j.ns ==> SlugOf(k.name) != ""
  }

  /** Generated slugs are new, and different for different purposes. */
  ghost predicate FreshSlugs(j: Job, s: Cluster) {
    && (forall who :: j.env.slug(who).Some?)
    && (forall a, b :: j.env.slug(a) == j.env.slug(b) ==> a == b)
    && forall who, k :: k in s && k.namespace == j.ns ==> j.env.slug(who) != Some(SlugOf(k.name))
  }

  /** One of the four kinds of object an instance consists of before unlock. */
  predicate InstanceKey(ns: string, k: Key) {
    && k.namespace == ns
    && match k.kind
       case DeploymentKind => k.name.Plain?
       case ServiceKind => k.name.Plain?
       case PolicyKind => k.name.PolicyName? && k.name.part != IngressAllowPart
       case NamespaceKind => false
       case IngressKind => false
  }

  // One instance without failures.

  lemma {:induction false} FaultlessCreateAll(s: Cluster, todo: seq<Creation>, env: Env)
    requires forall i :: 0 <= i < |todo| ==> env.fault(todo[i].site) == NoFault
    ensures var r := CreateAll(s, todo, env);
            && !r.err
            && (forall k :: k in s ==> k in r.store && r.store[k] == s[k])
            && (forall i :: 0 <= i < |todo| ==> todo[i].key in r.store)
            && (forall k :: k in r.store && k !in s ==>
                  exists i :: 0 <= i < |todo| && todo[i].key == k && r.store[k] == todo[i].value)
    decreases |todo|
  {
    if todo != [] {
      var first := Create(s, todo[0].key, todo[0].value, env.fault(todo[0].site));
      FaultlessCreateAll(first.store, todo[1..], env);
      var t := CreateAll(first.store, todo[1..], env).store;
      forall i | 0 <= i < |todo| ensures todo[i].key in t {
        if i > 0 { assert todo[i] == todo[1..][i - 1]; }
      }
      forall k | k in t && k !in s ensures exists i :: 0 <= i < |todo| && todo[i].key == k && t[k] == todo[i].value {
        if k in first.store {
          assert todo[0].key == k;
        } else {
          var i :| 0 <= i < |todo[1..]| && todo[1..][i].key == k && t[k] == todo[1..][i].value;
          assert todo[i + 1].key == k;
        }
      }
    }
  }

  lemma CalmInstance(j: Job, s: Cluster, who: Who, student: string, slug: string)
    requires j.env.Calm()
    ensures var r := ProvisionInstance(j, s, who, student, slug);
            && !r.err
            && (forall k :: k in s ==> k in r.store && r.store[k] == s[k])
            && (forall k :: InstanceKey(j.ns, k) && SlugOf(k.name) == slug ==> k in r.store)
            && (forall k :: k in r.store && k !in s ==> InstanceKey(j.ns, k) && SlugOf(k.name) == slug)
            && (DeploymentKey(j.ns, slug) !in s ==>
                  r.store[DeploymentKey(j.ns, slug)].labels == Labels(j.x, student, slug))
  {
    hide Labels, Service, PolicyObject;
    var todo := InstanceObjects(j, who, student, slug);
    FaultlessCreateAll(s, todo, j.env);
    var t := CreateAll(s, todo, j.env).store;
    assert todo[0].key in t && todo[1].key in t && todo[2].key in t && todo[3].key in t;
    forall k | InstanceKey(j.ns, k) && SlugOf(k.name) == slug ensures k in t {
      match k.kind
      case DeploymentKind => assert k == todo[0].key;
      case ServiceKind => assert k == todo[1].key;
      case PolicyKind => assert k == if k.name.part == DenyAllPart then todo[2].key else todo[3].key;
    }
  }

  // What the loops have done so far, relative to the leftover cluster `s0`.

  ghost predicate ForEntry(es: seq<Entry>, slug: string) {
    exists i :: 0 <= i < |es| && es[i].slug == slug
  }

  ghost predicate NewDeploymentLabel(j: Job, s0: Cluster, s: Cluster, e: Entry) {
    var k := DeploymentKey(j.ns, e.slug);
    k !in s0 ==> k in s && s[k].labels == Labels(j.x, e.student, e.slug)
  }

  ghost predicate Grown(j: Job, s0: Cluster, s: Cluster, es: seq<Entry>) {
    && (forall k :: k in s0 ==> k in s && s[k] == s0[k])
    && (forall k, i :: 0 <= i < |es| && InstanceKey(j.ns, k) && SlugOf(k.name) == es[i].slug ==> k in s)
    && (forall k :: k in s && k !in s0 ==> InstanceKey(j.ns, k) && ForEntry(es, SlugOf(k.name)))
    && (forall i :: 0 <= i < |es| ==> NewDeploymentLabel(j, s0, s, es[i]))
  }

  lemma DeploymentIsInstanceKey(ns: string, slug: string)
    ensures InstanceKey(ns, DeploymentKey(ns, slug))
  {
  }

  lemma GrowByInstance(j: Job, s0: Cluster, s: Cluster, es: seq<Entry>, who: Who, e: Entry)
    requires j.env.Calm() && Grown(j, s0, s, es)
    requires forall i :: 0 <= i < |es| ==> es[i].slug != e.slug
    ensures Grown(j, s0, ProvisionInstance(j, s, who, e.student, e.slug).store, es + [e])
  {
    hide Labels, ProvisionInstance, InstanceKey;
    CalmInstance(j, s, who, e.student, e.slug);
    var t := ProvisionInstance(j, s, who, e.student, e.slug).store;
    var fs := es + [e];
    assert fs[|es|] == e;
    forall k | k in t && k !in s0 ensures InstanceKey(j.ns, k) && ForEntry(fs, SlugOf(k.name)) {
      if k in s {
        var i :| 0 <= i < |es| && es[i].slug == SlugOf(k.name);
        assert fs[i] == es[i];
      }
    }
    forall i | 0 <= i < |fs| ensures NewDeploymentLabel(j, s0, t, fs[i]) {
      var d := DeploymentKey(j.ns, fs[i].slug);
      if i < |es| {
        assert fs[i] == es[i] && NewDeploymentLabel(j, s0, s, es[i]);
      } else {
        assert fs[i] == e && SlugOf(d.name) == e.slug;
        assert InstanceKey(j.ns, d) by { DeploymentIsInstanceKey(j.ns, e.slug); }
        assert !ForEntry(es, SlugOf(d.name));
      }
    }
  }

  // Students.

  /** A student gets the slug of a leftover deployment of hers if there is one, else a fresh one. */
  ghost predicate Chosen(j: Job, s0: Cluster, i: nat, slug: string)
    requires i < |j.spec.students|
  {
    var mine := StudentDeployments(j, s0, j.spec.students[i].id);
    if mine == {} then j.env.slug(StudentAt(i)) == Some(slug)
    else DeploymentKey(j.ns, slug) in mine
  }

  lemma StudentDeploymentLabel(j: Job, s: Cluster, id: string, slug: string)
    requires Tidy(j.x, j.ns, s) && DeploymentKey(j.ns, slug) in StudentDeployments(j, s, id)
    ensures Label(s, DeploymentKey(j.ns, slug), LabelStudent) == id
  {
    hide Made, Tidy;
  }

  lemma DifferentStudentsDifferentSlugs(j: Job, s0: Cluster, i: nat, a: string, k: nat, b: string)
    requires DistinctIDs(j.spec) && FreshSlugs(j, s0) && Tidy(j.x, j.ns, s0)
    requires i < k < |j.spec.students| && Chosen(j, s0, i, a) && Chosen(j, s0, k, b)
    ensures a != b
  {
    hide Made, Tidy;
    if a == b {
      var p, q := j.spec.students[i].id, j.spec.students[k].id;
      if StudentDeployments(j, s0, p) != {} && StudentDeployments(j, s0, q) != {} {
        StudentDeploymentLabel(j, s0, p, a);
        StudentDeploymentLabel(j, s0, q, b);
      }
    }
  }

  lemma SelectedStudent(x: Ref, id: string, labels: LabelSet)
    requires Selects(StudentSelector(x, id), labels)
    ensures LabelValue(labels, LabelStudent) == id
  {
    assert LabelStudent in StudentSelector(x, id);
  }

  /** New deployments are labelled with other students, so the lookup sees only the leftovers. */
  lemma SameStudentDeployments(j: Job, s0: Cluster, s: Cluster, es: seq<Entry>, id: string)
    requires Grown(j, s0, s, es) && id != ""
    requires forall i :: 0 <= i < |es| ==> es[i].student != id
    ensures StudentDeployments(j, s, id) == StudentDeployments(j, s0, id)
  {
    hide Labels, OwnerLabels, LabelValue, StudentSelector, Selects;
    forall k | k in StudentDeployments(j, s, id) ensures k in s0 {
      if k !in s0 {
        assert InstanceKey(j.ns, k) && ForEntry(es, SlugOf(k.name));
        var i :| 0 <= i < |es| && es[i].slug == SlugOf(k.name);
        assert k == DeploymentKey(j.ns, es[i].slug) && NewDeploymentLabel(j, s0, s, es[i]);
        LabelsStudent(j.x, es[i].student, es[i].slug);
        SelectedStudent(j.x, id, s[k].labels);
      }
    }
  }

  lemma {:induction false} UnknownID(students: seq<StudentStatus>, id: string)
    requires forall k :: 0 <= k < |students| ==> students[k].id != id
    ensures FirstSlug(students, id).None?
  {
    if students != [] {
      UnknownID(students[1..], id);
    }
  }

  ghost predicate StudentRestored(j: Job, s0: Cluster, k: nat, e: StudentStatus)
    requires k < |j.spec.students|
  {
    e.id == j.spec.students[k].id && Chosen(j, s0, k, e.slug) && e.phase == InstancePhase.Provisioned && e.email == EmailPending
  }

  ghost predicate StudentsSoFar(j: Job, s0: Cluster, c: Ctx, i: nat)
    requires i <= |j.spec.students|
  {
    && |c.status.students| == i && c.status.spares == []
    && (forall k :: 0 <= k < i ==> StudentRestored(j, s0, k, c.status.students[k]))
    && Grown(j, s0, c.store, Entries(c.status))
  }

  lemma StudentFound(j: Job, s0: Cluster, c: Ctx, i: nat)
    requires j.env.Valid() && j.env.Calm() && DistinctIDs(j.spec) && FreshSlugs(j, s0) && Leftover(j, s0)
    requires i < |j.spec.students| && StudentsSoFar(j, s0, c, i)
    ensures FindStudentSlug(j, c, i).Some? && Chosen(j, s0, i, FindStudentSlug(j, c, i).value)
  {
    hide Grown, Labels, Made;
    var id := j.spec.students[i].id;
    UnknownID(c.status.students, id);
    var es := Entries(c.status);
    SameStudentDeployments(j, s0, c.store, es, id);
    var mine := StudentDeployments(j, s0, id);
    var items := j.env.order(Lookup(StudentAt(i)), mine);
    assert Enumerates(items, mine);
    if items != [] {
      assert items[0] in items;
      assert items[0] in mine;
      assert items[0] in Owned(j, s0, DeploymentKind) by { StudentsAreOwned(j, s0, id, items[0]); }
      OwnedDeployment(j, s0, items[0]);
      assert c.store[items[0]] == s0[items[0]] by { GrownKeeps(j, s0, c.store, es, items[0]); }
    } else {
      assert mine == {} by { forall k ensures k !in mine { assert k in items <==> k in mine; } }
    }
  }

  lemma GrownKeeps(j: Job, s0: Cluster, s: Cluster, es: seq<Entry>, k: Key)
    requires Grown(j, s0, s, es) && k in s0
    ensures k in s && s[k] == s0[k]
  {
  }

  lemma StudentsAreOwned(j: Job, s: Cluster, id: string, k: Key)
    requires k in StudentDeployments(j, s, id)
    ensures k in Owned(j, s, DeploymentKind)
  {
    assert forall l :: l in OwnerLabels(j.x) ==> l in StudentSelector(j.x, id) && StudentSelector(j.x, id)[l] == OwnerLabels(j.x)[l];
  }

  lemma {:induction false} StudentsRecover(j: Job, s0: Cluster, c: Ctx, i: nat, healthy: bool)
    requires j.env.Valid() && j.env.Calm() && DistinctIDs(j.spec) && FreshSlugs(j, s0) && Leftover(j, s0)
    requires i <= |j.spec.students| && StudentsSoFar(j, s0, c, i)
    ensures var r := ProvisionStudents(j, c, i, healthy);
            !r.err && r.healthy == healthy && StudentsSoFar(j, s0, r.c, |j.spec.students|)
    decreases |j.spec.students| - i
  {
    hide FindStudentSlug, ProvisionInstance, Grown, Chosen, Leftover, FreshSlugs, InstanceURL;
    if i < |j.spec.students| {
      StudentFound(j, s0, c, i);
      var slug := FindStudentSlug(j, c, i).value;
      var id := j.spec.students[i].id;
      var es := Entries(c.status);
      forall k | 0 <= k < |es| ensures es[k].slug != slug {
        assert Tidy(j.x, j.ns, s0) by { LeftoverTidy(j, s0); }
        DifferentStudentsDifferentSlugs(j, s0, k, es[k].slug, i, slug);
      }
      GrowByInstance(j, s0, c.store, es, StudentAt(i), Entry(id, slug));
      CalmInstance(j, c.store, StudentAt(i), id, slug);
      var d := ProvisionStudent(j, c, i, slug);
      assert Entries(d.status) == es + [Entry(id, slug)];
      StudentsRecover(j, s0, d, i + 1, healthy);
    }
  }

  lemma LeftoverTidy(j: Job, s: Cluster)
    requires Leftover(j, s)
    ensures Tidy(j.x, j.ns, s)
  {
  }

  // Spares.

  ghost function SpareSet(j: Job, s: Cluster): set<string> {
    set k | k in Owned(j, s, DeploymentKind) && IsSpare(s, k) :: Label(s, k, LabelSlug)
  }

  lemma {:induction false} SpareSlugsList(s: Cluster, items: seq<Key>)
    requires NoDup(items)
    requires forall a, b :: a in items && b in items && Label(s, a, LabelSlug) == Label(s, b, LabelSlug) ==> a == b
    ensures NoDup(SpareSlugs(s, items))
    ensures forall slug :: slug in SpareSlugs(s, items) <==>
              exists k :: k in items && IsSpare(s, k) && Label(s, k, LabelSlug) == slug
  {
    hide IsSpare, Label;
    if items != [] {
      var rest := SpareSlugs(s, items[1..]);
      assert items == [items[0]] + items[1..];
      SpareSlugsList(s, items[1..]);
      if IsSpare(s, items[0]) {
        assert Label(s, items[0], LabelSlug) !in rest;
      }
    }
  }

  lemma ListedSpares(j: Job, s: Cluster, i: nat)
    requires j.env.Valid() && j.env.Calm() && Tidy(j.x, j.ns, s)
    ensures var found := SpareSlugs(s, j.env.order(Lookup(SpareAt(i)), Owned(j, s, DeploymentKind)));
            && NoDup(found) && Elements(found) == SpareSet(j, s)
            && LeftoverSpareSlugs(j, s, i) == SortStrings(found)
            && NoDup(SortStrings(found)) && Elements(SortStrings(found)) == SpareSet(j, s)
  {
    hide SpareSlugs, IsSpare, Label, Owned, Made, SortStrings;
    var owned := Owned(j, s, DeploymentKind);
    var items := j.env.order(Lookup(SpareAt(i)), owned);
    assert Enumerates(items, owned);
    forall a, b | a in items && b in items && Label(s, a, LabelSlug) == Label(s, b, LabelSlug) ensures a == b {
      OwnedDeployment(j, s, a);
      OwnedDeployment(j, s, b);
    }
    SpareSlugsList(s, items);
    var found := SpareSlugs(s, items);
    forall slug ensures slug in found <==> slug in SpareSet(j, s) {
      if slug in SpareSet(j, s) {
        var k :| k in owned && IsSpare(s, k) && Label(s, k, LabelSlug) == slug;
        assert k in items;
      }
    }
    SortOfListing(found, found);
  }

  /** The leftover spares' slugs in ascending order; every listing of the leftovers gives this list. */
  function SpareList(j: Job, s0: Cluster): seq<string> {
    LeftoverSpareSlugs(j, s0, 0)
  }

  lemma SameSparesSameList(j: Job, s0: Cluster, s: Cluster, i: nat)
    requires j.env.Valid() && j.env.Calm() && Tidy(j.x, j.ns, s0) && Tidy(j.x, j.ns, s)
    ensures NoDup(SpareList(j, s0)) && Elements(SpareList(j, s0)) == SpareSet(j, s0)
    ensures NoDup(LeftoverSpareSlugs(j, s, i)) && Elements(LeftoverSpareSlugs(j, s, i)) == SpareSet(j, s)
    ensures SpareSet(j, s) == SpareSet(j, s0) ==> LeftoverSpareSlugs(j, s, i) == SpareList(j, s0)
  {
    hide SpareSlugs, Owned, Made, SortStrings, SpareSet, LeftoverSpareSlugs;
    ListedSpares(j, s0, 0);
    ListedSpares(j, s, i);
    if SpareSet(j, s) == SpareSet(j, s0) {
      SortOfListing(SpareSlugs(s0, j.env.order(Lookup(SpareAt(0)), Owned(j, s0, DeploymentKind))),
                    SpareSlugs(s, j.env.order(Lookup(SpareAt(i)), Owned(j, s, DeploymentKind))));
    }
  }

  /** Spare `i` takes the i-th leftover slug in ascending order, or a fresh one when they run out. */
  ghost predicate SpareChosen(j: Job, s0: Cluster, i: nat, slug: string) {
    if i < |SpareList(j, s0)| then slug == SpareList(j, s0)[i] else j.env.slug(SpareAt(i)) == Some(slug)
  }

  ghost predicate SpareRestored(j: Job, s0: Cluster, k: nat, e: SpareStatus) {
    SpareChosen(j, s0, k, e.slug) && e.phase == InstancePhase.Provisioned
  }

  ghost predicate SparesSoFar(j: Job, s0: Cluster, c: Ctx, i: nat) {
    && |c.status.students| == |j.spec.students| && |c.status.spares| == i
    && (forall k :: 0 <= k < |c.status.students| ==> StudentRestored(j, s0, k, c.status.students[k]))
    && (forall k :: 0 <= k < i ==> SpareRestored(j, s0, k, c.status.spares[k]))
    && Grown(j, s0, c.store, Entries(c.status)) && Tidy(j.x, j.ns, c.store)
  }

  /** The spare deployments now in the cluster: the leftover ones and those made for a spare entry. */
  lemma SparesNow(j: Job, s0: Cluster, s: Cluster, es: seq<Entry>)
    requires Leftover(j, s0) && Grown(j, s0, s, es)
    requires forall i :: 0 <= i < |es| ==> es[i].slug != ""
    ensures forall slug :: slug in SpareSet(j, s) <==>
              slug in SpareSet(j, s0) ||
              exists i :: 0 <= i < |es| && es[i].slug == slug && es[i].student == "" && DeploymentKey(j.ns, slug) !in s0
  {
    hide Leftover, Labels, OwnerLabels, Made, Selects;
    forall slug ensures slug in SpareSet(j, s) <==>
              slug in SpareSet(j, s0) ||
              exists i :: 0 <= i < |es| && es[i].slug == slug && es[i].student == "" && DeploymentKey(j.ns, slug) !in s0
    {
      if slug in SpareSet(j, s) {
        var k :| k in Owned(j, s, DeploymentKind) && IsSpare(s, k) && Label(s, k, LabelSlug) == slug;
        if k in s0 {
          assert k in Owned(j, s0, DeploymentKind) && IsSpare(s0, k);
        } else {
          assert InstanceKey(j.ns, k) && ForEntry(es, SlugOf(k.name));
          var i :| 0 <= i < |es| && es[i].slug == SlugOf(k.name);
          assert k == DeploymentKey(j.ns, es[i].slug) && NewDeploymentLabel(j, s0, s, es[i]);
          LabelsStudent(j.x, es[i].student, es[i].slug);
        }
      }
      if slug in SpareSet(j, s0) {
        var k :| k in Owned(j, s0, DeploymentKind) && IsSpare(s0, k) && Label(s0, k, LabelSlug) == slug;
        assert k in Owned(j, s, DeploymentKind) && IsSpare(s, k) && Label(s, k, LabelSlug) == slug;
      }
      if i :| 0 <= i < |es| && es[i].slug == slug && es[i].student == "" && DeploymentKey(j.ns, slug) !in s0 {
        assert NewDeploymentLabel(j, s0, s, es[i]);
        LabelsStudent(j.x, "", slug);
        var k := DeploymentKey(j.ns, slug);
        assert k in Owned(j, s, DeploymentKind) && IsSpare(s, k) && Label(s, k, LabelSlug) == slug;
      }
    }
  }

  lemma LeftoverSpare(j: Job, s0: Cluster, slug: string)
    requires Tidy(j.x, j.ns, s0) && slug in SpareSet(j, s0)
    ensures DeploymentKey(j.ns, slug) in s0 && slug != ""
    ensures !HasLabel(s0, DeploymentKey(j.ns, slug), LabelStudent)
  {
    hide Made, Tidy;
    var k :| k in Owned(j, s0, DeploymentKind) && IsSpare(s0, k) && Label(s0, k, LabelSlug) == slug;
    OwnedDeployment(j, s0, k);
  }

  lemma ChosenSpareOrigin(j: Job, s0: Cluster, i: nat, slug: string)
    requires j.env.Valid() && j.env.Calm() && FreshSlugs(j, s0) && Leftover(j, s0) && SpareChosen(j, s0, i, slug)
    ensures slug != ""
    ensures if i < |SpareList(j, s0)| then slug in SpareSet(j, s0)
            else j.env.slug(SpareAt(i)) == Some(slug) && DeploymentKey(j.ns, slug) !in s0
  {
    hide Made, Tidy, SpareList, SpareSet;
    LeftoverTidy(j, s0);
    SameSparesSameList(j, s0, s0, 0);
    if i < |SpareList(j, s0)| {
      assert slug in SpareList(j, s0);
      assert slug in SpareSet(j, s0);
      LeftoverSpare(j, s0, slug);
    } else if DeploymentKey(j.ns, slug) in s0 {
      NotFresh(j, s0, SpareAt(i), slug);
    }
  }

  lemma NotFresh(j: Job, s0: Cluster, who: Who, slug: string)
    requires FreshSlugs(j, s0) && DeploymentKey(j.ns, slug) in s0
    ensures j.env.slug(who) != Some(slug)
  {
    assert SlugOf(DeploymentKey(j.ns, slug).name) == slug;
  }

  lemma SpareDiffersFromSpare(j: Job, s0: Cluster, i: nat, a: string, k: nat, b: string)
    requires j.env.Valid() && j.env.Calm() && FreshSlugs(j, s0) && Leftover(j, s0)
    requires i < k && SpareChosen(j, s0, i, a) && SpareChosen(j, s0, k, b)
    ensures a != b
  {
    hide Leftover, Made, SpareList, SpareSet;
    ChosenSpareOrigin(j, s0, i, a);
    ChosenSpareOrigin(j, s0, k, b);
    LeftoverTidy(j, s0);
    SameSparesSameList(j, s0, s0, 0);
    if a == b && k >= |SpareList(j, s0)| && i < |SpareList(j, s0)| {
      LeftoverSpare(j, s0, a);
    }
  }

  lemma SpareDiffersFromStudent(j: Job, s0: Cluster, i: nat, a: string, k: nat, b: string)
    requires j.env.Valid() && j.env.Calm() && FreshSlugs(j, s0) && Leftover(j, s0) && DistinctIDs(j.spec)
    requires i < |j.spec.students| && Chosen(j, s0, i, a) && SpareChosen(j, s0, k, b)
    ensures a != b
  {
    hide Leftover, Made, SpareList, SpareSet, Labels, Selects;
    ChosenSpareOrigin(j, s0, k, b);
    LeftoverTidy(j, s0);
    var id := j.spec.students[i].id;
    if a == b {
      if StudentDeployments(j, s0, id) != {} {
        StudentDeploymentLabel(j, s0, id, a);
        if k < |SpareList(j, s0)| {
          LeftoverSpare(j, s0, a);
        }
      } else if k < |SpareList(j, s0)| {
        LeftoverSpare(j, s0, a);
        NotFresh(j, s0, StudentAt(i), a);
      }
    }
  }

  lemma StudentSlugKnown(j: Job, s0: Cluster, i: nat, slug: string)
    requires j.env.Valid() && Tidy(j.x, j.ns, s0) && i < |j.spec.students| && Chosen(j, s0, i, slug)
    ensures slug != ""
  {
    hide Made, Tidy, Selects;
    var id := j.spec.students[i].id;
    if StudentDeployments(j, s0, id) != {} {
      StudentsAreOwned(j, s0, id, DeploymentKey(j.ns, slug));
      OwnedDeployment(j, s0, DeploymentKey(j.ns, slug));
    }
  }

  lemma EntriesAtLookup(j: Job, s0: Cluster, c: Ctx, i: nat)
    requires j.env.Valid() && j.env.Calm() && FreshSlugs(j, s0) && Leftover(j, s0) && DistinctIDs(j.spec)
    requires SparesSoFar(j, s0, c, i)
    ensures var es := Entries(c.status);
            forall e :: 0 <= e < |es| ==> es[e].slug != "" && (es[e].student == "" <==> e >= |c.status.students|)
  {
    hide Leftover, Made, SpareList, Labels, Chosen, SpareChosen, FreshSlugs, Grown;
    var es := Entries(c.status);
    var n := |c.status.students|;
    LeftoverTidy(j, s0);
    forall e | 0 <= e < |es| ensures es[e].slug != "" && (es[e].student == "" <==> e >= n) {
      if e < n {
        assert StudentRestored(j, s0, e, c.status.students[e]);
        StudentSlugKnown(j, s0, e, es[e].slug);
      } else {
        assert SpareRestored(j, s0, e - n, c.status.spares[e - n]);
        ChosenSpareOrigin(j, s0, e - n, es[e].slug);
      }
    }
  }

  /** Slug by slug: leftover, or made for one of the spare entries so far. */
  lemma SparesByIndex(j: Job, s0: Cluster, c: Ctx, i: nat, slug: string)
    requires j.env.Valid() && j.env.Calm() && FreshSlugs(j, s0) && Leftover(j, s0) && DistinctIDs(j.spec)
    requires SparesSoFar(j, s0, c, i)
    ensures slug in SpareSet(j, c.store) <==>
              slug in SpareSet(j, s0) ||
              exists k :: 0 <= k < i && c.status.spares[k].slug == slug && DeploymentKey(j.ns, slug) !in s0
  {
    hide Leftover, Made, SpareList, SpareSet, Labels, Chosen, SpareChosen, FreshSlugs, Grown, StudentRestored, SpareRestored;
    var es := Entries(c.status);
    var n := |c.status.students|;
    EntriesAtLookup(j, s0, c, i);
    SparesNow(j, s0, c.store, es);
    if k :| 0 <= k < i && c.status.spares[k].slug == slug && DeploymentKey(j.ns, slug) !in s0 {
      assert es[n + k] == Entry("", slug);
    }
    if e :| 0 <= e < |es| && es[e].slug == slug && es[e].student == "" && DeploymentKey(j.ns, slug) !in s0 {
      assert c.status.spares[e - n].slug == slug;
    }
  }

  lemma SpareEntryOrigin(j: Job, s0: Cluster, c: Ctx, i: nat, k: nat)
    requires j.env.Valid() && j.env.Calm() && FreshSlugs(j, s0) && Leftover(j, s0)
    requires k < i && SparesSoFar(j, s0, c, i)
    ensures if k < |SpareList(j, s0)|
            then c.status.spares[k].slug == SpareList(j, s0)[k] && DeploymentKey(j.ns, c.status.spares[k].slug) in s0
            else DeploymentKey(j.ns, c.status.spares[k].slug) !in s0
  {
    hide Leftover, Made, SpareList, SpareSet, FreshSlugs, Grown, StudentRestored;
    var slug := c.status.spares[k].slug;
    LeftoverTidy(j, s0);
    assert SpareRestored(j, s0, k, c.status.spares[k]);
    ChosenSpareOrigin(j, s0, k, slug);
    if k < |SpareList(j, s0)| {
      LeftoverSpare(j, s0, slug);
    }
  }

  /** The spares in the cluster when spare `i` is looked up. */
  lemma SparesAtLookup(j: Job, s0: Cluster, c: Ctx, i: nat)
    requires j.env.Valid() && j.env.Calm() && FreshSlugs(j, s0) && Leftover(j, s0) && DistinctIDs(j.spec)
    requires SparesSoFar(j, s0, c, i)
    ensures i < |SpareList(j, s0)| ==> SpareSet(j, c.store) == SpareSet(j, s0)
    ensures i >= |SpareList(j, s0)| ==>
              SpareSet(j, c.store) == Elements(seq(i, k requires 0 <= k < i => c.status.spares[k].slug))
  {
    hide Leftover, Made, SpareList, SpareSet, FreshSlugs, Grown, StudentRestored, SpareRestored, LeftoverSpareSlugs;
    LeftoverTidy(j, s0);
    SameSparesSameList(j, s0, s0, 0);
    var list := SpareList(j, s0);
    var so := seq(i, k requires 0 <= k < i => c.status.spares[k].slug);
    forall k | 0 <= k < i
      ensures if k < |list| then so[k] == list[k] && DeploymentKey(j.ns, so[k]) in s0 else DeploymentKey(j.ns, so[k]) !in s0
    {
      SpareEntryOrigin(j, s0, c, i, k);
    }
    forall slug ensures slug in SpareSet(j, c.store) <==>
                          slug in SpareSet(j, s0) || exists k :: 0 <= k < i && so[k] == slug && DeploymentKey(j.ns, slug) !in s0
    {
      SparesByIndex(j, s0, c, i, slug);
      if k :| 0 <= k < i && c.status.spares[k].slug == slug && DeploymentKey(j.ns, slug) !in s0 {
        assert so[k] == slug;
      }
    }
    if i >= |list| {
      forall slug ensures slug in SpareSet(j, c.store) <==> slug in so {
        if slug in list {
          var k :| 0 <= k < |list| && list[k] == slug;
          assert so[k] == slug;
        }
        assert slug in SpareSet(j, s0) <==> slug in list;
      }
    }
  }

  lemma SpareFound(j: Job, s0: Cluster, c: Ctx, i: nat)
    requires j.env.Valid() && j.env.Calm() && FreshSlugs(j, s0) && Leftover(j, s0) && DistinctIDs(j.spec)
    requires SparesSoFar(j, s0, c, i)
    ensures FindSpareSlug(j, c, i).Some? && SpareChosen(j, s0, i, FindSpareSlug(j, c, i).value)
  {
    hide Leftover, Made, SpareList, SpareSet, Grown, StudentRestored, LeftoverSpareSlugs, SpareChosen;
    LeftoverTidy(j, s0);
    SparesAtLookup(j, s0, c, i);
    SameSparesSameList(j, s0, c.store, i);
    var leftovers := LeftoverSpareSlugs(j, c.store, i);
    Pigeonhole(leftovers);
    if i >= |SpareList(j, s0)| {
      var so := seq(i, k requires 0 <= k < i => c.status.spares[k].slug);
      forall a, b | 0 <= a < b < i ensures so[a] != so[b] {
        assert SpareRestored(j, s0, a, c.status.spares[a]) && SpareRestored(j, s0, b, c.status.spares[b]);
        SpareDiffersFromSpare(j, s0, a, so[a], b, so[b]);
      }
      Pigeonhole(so);
    }
    SpareChosenMeans(j, s0, i, FindSpareSlug(j, c, i).value);
  }

  lemma SpareChosenMeans(j: Job, s0: Cluster, i: nat, slug: string)
    ensures SpareChosen(j, s0, i, slug) <==>
              if i < |SpareList(j, s0)| then slug == SpareList(j, s0)[i] else j.env.slug(SpareAt(i)) == Some(slug)
  {
  }

  lemma SpareSlugIsNew(j: Job, s0: Cluster, c: Ctx, i: nat, slug: string)
    requires j.env.Valid() && j.env.Calm() && FreshSlugs(j, s0) && Leftover(j, s0) && DistinctIDs(j.spec)
    requires SparesSoFar(j, s0, c, i) && SpareChosen(j, s0, i, slug)
    ensures forall e :: 0 <= e < |Entries(c.status)| ==> Entries(c.status)[e].slug != slug
  {
    hide Grown, Chosen, SpareChosen, Leftover, FreshSlugs, Made;
    var es := Entries(c.status);
    var n := |c.status.students|;
    forall e | 0 <= e < |es| ensures es[e].slug != slug {
      if e < n {
        assert StudentRestored(j, s0, e, c.status.students[e]);
        SpareDiffersFromStudent(j, s0, e, es[e].slug, i, slug);
      } else {
        assert SpareRestored(j, s0, e - n, c.status.spares[e - n]);
        SpareDiffersFromSpare(j, s0, e - n, es[e].slug, i, slug);
      }
    }
  }

  lemma SpareStep(j: Job, s0: Cluster, c: Ctx, i: nat, slug: string)
    requires j.env.Valid() && j.env.Calm() && FreshSlugs(j, s0) && Leftover(j, s0) && DistinctIDs(j.spec)
    requires SparesSoFar(j, s0, c, i) && SpareChosen(j, s0, i, slug)
    ensures SparesSoFar(j, s0, ProvisionSpare(j, c, i, slug), i + 1)
    ensures !ProvisionInstance(j, c.store, SpareAt(i), "", slug).err
  {
    hide ProvisionInstance, Grown, Chosen, SpareChosen, Leftover, FreshSlugs, InstanceURL, Changes, StudentRestored, Tidy,
         InstanceKey, Entries;
    var es := Entries(c.status);
    SpareSlugIsNew(j, s0, c, i, slug);
    GrowByInstance(j, s0, c.store, es, SpareAt(i), Entry("", slug));
    CalmInstance(j, c.store, SpareAt(i), "", slug);
    ChosenSpareOrigin(j, s0, i, slug);
    InstanceChanges(j, c.store, SpareAt(i), "", slug);
    var d := ProvisionSpare(j, c, i, slug);
    ChangesTidy(j.x, j.ns, j.spec.template, false, c.store, d.store);
    assert Entries(d.status) == es + [Entry("", slug)] by { SpareEntryAppended(c.status, d.status, slug); }
  }

  lemma SpareEntryAppended(a: Status, b: Status, slug: string)
    requires b.students == a.students && |b.spares| == |a.spares| + 1 && b.spares[|a.spares|].slug == slug
    requires forall k :: 0 <= k < |a.spares| ==> b.spares[k] == a.spares[k]
    ensures Entries(b) == Entries(a) + [Entry("", slug)]
  {
  }

  lemma {:induction false} SparesRecover(j: Job, s0: Cluster, c: Ctx, i: nat, healthy: bool)
    requires j.env.Valid() && j.env.Calm() && FreshSlugs(j, s0) && Leftover(j, s0) && DistinctIDs(j.spec)
    requires i <= j.spec.spares && SparesSoFar(j, s0, c, i)
    ensures var r := ProvisionSpares(j, c, i, healthy);
            !r.err && r.healthy == healthy && SparesSoFar(j, s0, r.c, j.spec.spares)
    decreases j.spec.spares - i
  {
    hide FindSpareSlug, ProvisionInstance, ProvisionSpare, SparesSoFar, SpareChosen, Leftover, FreshSlugs;
    if i < j.spec.spares {
      SpareFound(j, s0, c, i);
      var slug := FindSpareSlug(j, c, i).value;
      SpareStep(j, s0, c, i, slug);
      SparesRecover(j, s0, ProvisionSpare(j, c, i, slug), i + 1, healthy);
    }
  }

  // Clean-up and the whole pass.

  /** Only parts of instances, each well made for some slug, live in the namespace. */
  ghost predicate OnlyInstances(j: Job, s: Cluster) {
    forall k :: k in s && k.namespace == j.ns ==> InstanceKey(j.ns, k) && SlugOf(k.name) != "" && Made(j.x, k, s[k])
  }

  lemma LocalIsOwned(j: Job, s: Cluster, k: Key, valid: set<string>)
    requires OnlyInstances(j, s) && k in s && k.namespace == j.ns
    ensures k in Owned(j, s, k.kind) && (Orphan(s, k, valid) <==> SlugOf(k.name) !in valid)
  {
    hide Labels, OwnerLabels, Selects;
    assert Made(j.x, k, s[k]);
    var template :| WellMade(j.x, template, k, s[k]);
    WellMadeMapsBack(j.x, template, k, s[k]);
  }

  lemma CalmCleanupKind(j: Job, s: Cluster, valid: set<string>, kind: Kind)
    requires j.env.Valid() && j.env.Calm() && OnlyInstances(j, s)
    ensures var r := CleanupKind(j, s, valid, kind);
            && !r.err && OnlyInstances(j, r.store) && Shrinks(s, r.store)
            && forall k :: k in s ==>
                 (k in r.store <==> !(k.namespace == j.ns && k.kind == kind && SlugOf(k.name) !in valid))
  {
    hide Purge, Selected, Orphan, Made, InstanceKey;
    PurgeSucceeds(s, s, j.env.order(CleanupList(kind), Owned(j, s, kind)), valid, j.env);
    CleanupKindShrinks(j, s, valid, kind);
    var r := CleanupKind(j, s, valid, kind);
    forall k | k in s ensures k in r.store <==> !(k.namespace == j.ns && k.kind == kind && SlugOf(k.name) !in valid) {
      if k.namespace == j.ns {
        LocalIsOwned(j, s, k, valid);
      }
      assert k in Owned(j, s, kind) ==> k.kind == kind && k.namespace == j.ns by { OwnedIsLocal(j, s, k, kind); }
    }
  }

  lemma OwnedIsLocal(j: Job, s: Cluster, k: Key, kind: Kind)
    ensures k in Owned(j, s, kind) ==> k in s && k.kind == kind && k.namespace == j.ns
  {
  }

  lemma CalmCleanup(j: Job, s: Cluster, valid: set<string>)
    requires j.env.Valid() && j.env.Calm() && OnlyInstances(j, s)
    ensures var t := Cleanup(j, s, valid).store;
            Shrinks(s, t) &&
            forall k: Key :: k.namespace == j.ns ==> (k in t <==> k in s && SlugOf(k.name) in valid)
  {
    hide CleanupKind, Made;
    var a := CleanupKind(j, s, valid, DeploymentKind).store;
    CalmCleanupKind(j, s, valid, DeploymentKind);
    var b := CleanupKind(j, a, valid, ServiceKind).store;
    CalmCleanupKind(j, a, valid, ServiceKind);
    CalmCleanupKind(j, b, valid, PolicyKind);
  }

  lemma GrownOnlyInstances(j: Job, s0: Cluster, c: Ctx, i: nat)
    requires j.env.Valid() && j.env.Calm() && FreshSlugs(j, s0) && Leftover(j, s0) && DistinctIDs(j.spec) && j.ns != ""
    requires SparesSoFar(j, s0, c, i)
    ensures OnlyInstances(j, c.store)
  {
    hide Labels, OwnerLabels, FreshSlugs, StudentRestored, SpareRestored;
    EntriesAtLookup(j, s0, c, i);
    var s := c.store;
    forall k | k in s && k.namespace == j.ns
      ensures InstanceKey(j.ns, k) && SlugOf(k.name) != "" && Made(j.x, k, s[k])
    {
      assert Made(j.x, k, s[k]);
      if k in s0 {
        assert Made(j.x, k, s0[k]);
        var template :| WellMade(j.x, template, k, s0[k]);
        assert !IsAccess(k);
      } else {
        assert ForEntry(Entries(c.status), SlugOf(k.name));
      }
    }
  }

  /** The deployment of a recorded student is labelled hers, that of a spare is nobody's. */
  ghost predicate LabelledRight(j: Job, st: Status, s: Cluster) {
    && (forall i :: 0 <= i < |st.students| ==>
          Label(s, DeploymentKey(j.ns, st.students[i].slug), LabelStudent) == st.students[i].id)
    && (forall i :: 0 <= i < |st.spares| ==> !HasLabel(s, DeploymentKey(j.ns, st.spares[i].slug), LabelStudent))
  }

  /** What was there and still is was not touched. */
  ghost predicate Untouched(s0: Cluster, s: Cluster) {
    forall k :: k in s0 && k in s ==> s[k] == s0[k]
  }

  ghost predicate Restored(j: Job, s0: Cluster, c: Ctx) {
    && |c.status.students| == |j.spec.students| && |c.status.spares| == j.spec.spares
    && (forall i :: 0 <= i < |c.status.students| ==> StudentRestored(j, s0, i, c.status.students[i]))
    && (forall i :: 0 <= i < |c.status.spares| ==> SpareRestored(j, s0, i, c.status.spares[i]))
    && "" !in AllSlugs(c.status) && NoDup(AllSlugs(c.status))
    && (forall k: Key :: k.namespace == j.ns ==> (k in c.store <==> InstanceKey(j.ns, k) && SlugOf(k.name) in AllSlugs(c.status)))
    && LabelledRight(j, c.status, c.store) && Untouched(s0, c.store)
  }

  lemma StudentLabelled(j: Job, s0: Cluster, c: Ctx, i: nat)
    requires j.env.Valid() && FreshSlugs(j, s0) && Leftover(j, s0)
    requires i < |c.status.students| == |j.spec.students| && StudentRestored(j, s0, i, c.status.students[i])
    requires Grown(j, s0, c.store, Entries(c.status))
    ensures Label(c.store, DeploymentKey(j.ns, c.status.students[i].slug), LabelStudent) == c.status.students[i].id
  {
    hide Labels, FreshSlugs, Made, Leftover;
    var e := c.status.students[i];
    var k := DeploymentKey(j.ns, e.slug);
    assert Entries(c.status)[i] == Entry(e.id, e.slug);
    assert NewDeploymentLabel(j, s0, c.store, Entries(c.status)[i]);
    if k in s0 {
      LeftoverTidy(j, s0);
      if StudentDeployments(j, s0, e.id) == {} {
        NotFresh(j, s0, StudentAt(i), e.slug);
      }
      StudentDeploymentLabel(j, s0, e.id, e.slug);
    } else {
      LabelsStudent(j.x, e.id, e.slug);
    }
  }

  lemma SpareUnlabelled(j: Job, s0: Cluster, c: Ctx, i: nat)
    requires j.env.Valid() && j.env.Calm() && FreshSlugs(j, s0) && Leftover(j, s0)
    requires i < |c.status.spares| && SpareRestored(j, s0, i, c.status.spares[i])
    requires Grown(j, s0, c.store, Entries(c.status))
    ensures !HasLabel(c.store, DeploymentKey(j.ns, c.status.spares[i].slug), LabelStudent)
  {
    hide Labels, FreshSlugs, Made, Leftover, SpareSet, SpareList;
    var e := c.status.spares[i];
    var es := Entries(c.status);
    var n := |c.status.students| + i;
    assert es[n] == Entry("", e.slug);
    assert NewDeploymentLabel(j, s0, c.store, es[n]);
    ChosenSpareOrigin(j, s0, i, e.slug);
    if i < |SpareList(j, s0)| {
      LeftoverTidy(j, s0);
      LeftoverSpare(j, s0, e.slug);
    } else {
      LabelsStudent(j.x, "", e.slug);
    }
  }

  lemma LoopsLabelRight(j: Job, s0: Cluster, c: Ctx)
    requires j.env.Valid() && j.env.Calm() && FreshSlugs(j, s0) && Leftover(j, s0)
    requires j.spec.spares >= 0 && SparesSoFar(j, s0, c, j.spec.spares)
    ensures LabelledRight(j, c.status, c.store)
  {
    hide Grown, FreshSlugs, Leftover, Chosen, SpareChosen, Label, HasLabel, Made, StudentRestored, SpareRestored;
    forall i | 0 <= i < |c.status.students|
      ensures Label(c.store, DeploymentKey(j.ns, c.status.students[i].slug), LabelStudent) == c.status.students[i].id
    {
      StudentLabelled(j, s0, c, i);
    }
    forall i | 0 <= i < |c.status.spares|
      ensures !HasLabel(c.store, DeploymentKey(j.ns, c.status.spares[i].slug), LabelStudent)
    {
      SpareUnlabelled(j, s0, c, i);
    }
  }

  /** Deleting other objects changes no label of those that stay. */
  lemma ShrinkingKeepsLabels(j: Job, st: Status, s: Cluster, t: Cluster)
    requires LabelledRight(j, st, s) && Shrinks(s, t)
    requires forall slug :: slug in AllSlugs(st) ==> DeploymentKey(j.ns, slug) in t
    ensures LabelledRight(j, st, t)
  {
    var all := AllSlugs(st);
    forall i | 0 <= i < |st.students| ensures DeploymentKey(j.ns, st.students[i].slug) in t {
      assert all[i] == st.students[i].slug;
    }
    forall i | 0 <= i < |st.spares| ensures DeploymentKey(j.ns, st.spares[i].slug) in t {
      assert all[|st.students| + i] == st.spares[i].slug;
    }
  }

  lemma AllSlugsDiffer(j: Job, s0: Cluster, c: Ctx)
    requires j.env.Valid() && j.env.Calm() && FreshSlugs(j, s0) && Leftover(j, s0) && DistinctIDs(j.spec)
    requires j.spec.spares >= 0 && SparesSoFar(j, s0, c, j.spec.spares)
    ensures "" !in AllSlugs(c.status) && NoDup(AllSlugs(c.status))
  {
    hide Grown, Chosen, SpareChosen, Leftover, FreshSlugs, Made;
    var all, es := AllSlugs(c.status), Entries(c.status);
    var n := |c.status.students|;
    assert |all| == |es| && forall e :: 0 <= e < |es| ==> all[e] == es[e].slug;
    EntriesAtLookup(j, s0, c, j.spec.spares);
    LeftoverTidy(j, s0);
    forall a, b | 0 <= a < b < |all| ensures all[a] != all[b] {
      if b < n {
        assert StudentRestored(j, s0, a, c.status.students[a]) && StudentRestored(j, s0, b, c.status.students[b]);
        DifferentStudentsDifferentSlugs(j, s0, a, all[a], b, all[b]);
      } else if a < n {
        assert StudentRestored(j, s0, a, c.status.students[a]) && SpareRestored(j, s0, b - n, c.status.spares[b - n]);
        SpareDiffersFromStudent(j, s0, a, all[a], b - n, all[b]);
      } else {
        assert SpareRestored(j, s0, a - n, c.status.spares[a - n]) && SpareRestored(j, s0, b - n, c.status.spares[b - n]);
        SpareDiffersFromSpare(j, s0, a - n, all[a], b - n, all[b]);
      }
    }
  }

  lemma InstancesGrown(j: Job, s0: Cluster, s: Cluster, st: Status)
    requires Grown(j, s0, s, Entries(st))
    ensures forall k :: InstanceKey(j.ns, k) && SlugOf(k.name) in AllSlugs(st) ==> k in s
  {
    hide InstanceKey, NewDeploymentLabel;
    var all, es := AllSlugs(st), Entries(st);
    assert |all| == |es| && forall e :: 0 <= e < |es| ==> all[e] == es[e].slug;
    forall k | InstanceKey(j.ns, k) && SlugOf(k.name) in all ensures k in s {
      var e :| 0 <= e < |all| && all[e] == SlugOf(k.name);
      assert es[e].slug == SlugOf(k.name);
    }
  }

  /** Which objects the clean-up leaves in the namespace. */
  lemma CleanedKeys(j: Job, s0: Cluster, c: Ctx)
    requires j.env.Valid() && j.env.Calm() && FreshSlugs(j, s0) && Leftover(j, s0) && DistinctIDs(j.spec) && j.ns != ""
    requires j.spec.spares >= 0 && SparesSoFar(j, s0, c, j.spec.spares)
    ensures var t := Cleanup(j, c.store, ValidSlugs(c.status)).store;
            && (forall k: Key :: k.namespace == j.ns ==>
                  (k in t <==> InstanceKey(j.ns, k) && SlugOf(k.name) in AllSlugs(c.status)))
            && Shrinks(c.store, t) && OnlyInstances(j, t)
  {
    hide Cleanup, Chosen, SpareChosen, Leftover, FreshSlugs, Made, StudentRestored, SpareRestored, InstanceKey, ValidSlugs,
         Grown, AllSlugs, Entries;
    ValidAmongAll(c.status);
    GrownOnlyInstances(j, s0, c, j.spec.spares);
    CalmCleanup(j, c.store, ValidSlugs(c.status));
    InstancesGrown(j, s0, c.store, c.status);
  }

  /** After the loops the clean-up leaves exactly the objects of the recorded slugs. */
  lemma CleanedExactly(j: Job, s0: Cluster, c: Ctx)
    requires j.env.Valid() && j.env.Calm() && FreshSlugs(j, s0) && Leftover(j, s0) && DistinctIDs(j.spec) && j.ns != ""
    requires j.spec.spares >= 0 && SparesSoFar(j, s0, c, j.spec.spares)
    ensures Restored(j, s0, c.(store := Cleanup(j, c.store, ValidSlugs(c.status)).store))
    ensures OnlyInstances(j, Cleanup(j, c.store, ValidSlugs(c.status)).store)
  {
    hide Cleanup, Chosen, SpareChosen, Leftover, FreshSlugs, Made, StudentRestored, SpareRestored, InstanceKey, ValidSlugs,
         LabelledRight, OnlyInstances, AllSlugs, Entries;
    AllSlugsDiffer(j, s0, c);
    CleanedKeys(j, s0, c);
    LoopsLabelRight(j, s0, c);
    var t := Cleanup(j, c.store, ValidSlugs(c.status)).store;
    forall slug | slug in AllSlugs(c.status) ensures DeploymentKey(j.ns, slug) in t {
      DeploymentIsInstanceKey(j.ns, slug);
    }
    ShrinkingKeepsLabels(j, c.status, c.store, t);
  }

  lemma RestoredGate(j: Job, s0: Cluster, c: Ctx)
    requires j.env.Calm() && Restored(j, s0, c) && OnlyInstances(j, c.store)
    ensures AllInstancesHealthy(j, c.store) <==>
              forall slug :: slug in AllSlugs(c.status) ==> IsReady(c.store, DeploymentKey(j.ns, slug))
  {
    hide StudentRestored, SpareRestored, Made, Selected, IsReady, AllSlugs;
    var all := AllSlugs(c.status);
    var owned := Owned(j, c.store, DeploymentKind);
    forall k ensures k in owned <==> exists slug :: slug in all && k == DeploymentKey(j.ns, slug) {
      OwnedIsLocal(j, c.store, k, DeploymentKind);
      if k in owned {
        assert k == DeploymentKey(j.ns, SlugOf(k.name));
      }
      if slug :| slug in all && k == DeploymentKey(j.ns, slug) {
        DeploymentIsInstanceKey(j.ns, slug);
        LocalIsOwned(j, c.store, k, {});
      }
    }
    assert owned == set slug | slug in Elements(all) :: DeploymentKey(j.ns, slug);
    KeysAsSlugs(j.ns, Elements(all));
    Pigeonhole(all);
    SlugCount(c.status);
  }

  /** Making the namespace changes nothing that the lookups see. */
  lemma NamespaceUnseen(j: Job, s0: Cluster, s1: Cluster)
    requires j.env.Valid() && j.env.Calm() && j.ns != "" && Leftover(j, s0) && FreshSlugs(j, s0)
    requires s1 == s0 || s1 == s0[NamespaceKey(j.ns) := NamespaceObject(j.x)]
    ensures Leftover(j, s1) && FreshSlugs(j, s1)
    ensures forall id :: StudentDeployments(j, s1, id) == StudentDeployments(j, s0, id)
    ensures SpareList(j, s1) == SpareList(j, s0)
  {
    hide Made, Selects, SpareSlugs, SortStrings, LeftoverSpareSlugs, OwnerLabels, StudentSelector;
    assert Owned(j, s1, DeploymentKind) == Owned(j, s0, DeploymentKind);
    assert forall k :: k in Owned(j, s0, DeploymentKind) ==>
      (IsSpare(s1, k) <==> IsSpare(s0, k)) && Label(s1, k, LabelSlug) == Label(s0, k, LabelSlug);
    assert SpareSet(j, s1) == SpareSet(j, s0);
    SameSparesSameList(j, s0, s1, 0);
  }

  lemma SameOrigins(j: Job, s0: Cluster, s1: Cluster, c: Ctx)
    requires forall id :: StudentDeployments(j, s1, id) == StudentDeployments(j, s0, id)
    requires SpareList(j, s1) == SpareList(j, s0) && Restored(j, s1, c)
    requires forall k :: k in s0 ==> k in s1 && s1[k] == s0[k]
    ensures Restored(j, s0, c)
  {
    hide InstanceKey, AllSlugs, SpareList, StudentDeployments, LabelledRight;
    forall i | 0 <= i < |c.status.students| ensures StudentRestored(j, s0, i, c.status.students[i]) {
      assert StudentRestored(j, s1, i, c.status.students[i]);
    }
    forall i | 0 <= i < |c.status.spares| ensures SpareRestored(j, s0, i, c.status.spares[i]) {
      assert SpareRestored(j, s1, i, c.status.spares[i]);
    }
  }

  /** The two loops, from a cluster in which the namespace exists. */
  lemma LoopsRecover(j: Job, c: Ctx) returns (d: Ctx)
    requires j.env.Valid() && j.env.Calm() && FreshSlugs(j, c.store) && Leftover(j, c.store)
    requires DistinctIDs(j.spec) && j.spec.spares >= 0
    requires c.status.students == [] && c.status.spares == []
    ensures var students := ProvisionStudents(j, c, 0, true);
            var spares := ProvisionSpares(j, students.c, 0, students.healthy);
            !students.err && spares == Progress(d, true, false)
    ensures SparesSoFar(j, c.store, d, j.spec.spares)
    ensures d.status == c.status.(students := d.status.students, spares := d.status.spares) && d.mails == c.mails
  {
    hide ProvisionStudents, ProvisionSpares, Chosen, SpareChosen, FreshSlugs, Made, Changes, InstanceKey;
    assert Entries(c.status) == [];
    LeftoverTidy(j, c.store);
    StudentsRecover(j, c.store, c, 0, true);
    StudentsContained(j, c, 0, true);
    StudentsKeepPhase(j, c, 0, true);
    var students := ProvisionStudents(j, c, 0, true);
    ChangesTidy(j.x, j.ns, j.spec.template, false, c.store, students.c.store);
    SparesRecover(j, c.store, students.c, 0, true);
    SparesKeepPhase(j, students.c, 0, true);
    d := ProvisionSpares(j, students.c, 0, true).c;
  }

  /** One pass without failures, from an empty status and any leftover objects of the exam, leaves one
      instance per student and spare and nothing else, on leftover slugs wherever there are any. */
  lemma RecoveryConverges(j: Job, c: Ctx)
    requires j.env.Valid() && j.env.Calm() && FreshSlugs(j, c.store) && Leftover(j, c.store)
    requires DistinctIDs(j.spec) && j.spec.spares >= 0 && j.ns != ""
    requires c.status.phase == Phase.Provisioning && c.status.students == [] && c.status.spares == []
    ensures var o := ReconcileProvisioning(j, c);
            && !o.err && Restored(j, c.store, o.c)
            && (o.c.status.phase == Ready <==>
                  forall slug :: slug in AllSlugs(o.c.status) ==> IsReady(o.c.store, DeploymentKey(j.ns, slug)))
  {
    hide ProvisionStudents, ProvisionSpares, Cleanup, Made, FreshSlugs, Restored, Leftover, AllInstancesHealthy,
         NamespaceObject, OnlyInstances, IsReady, ValidSlugs, SparesSoFar, SpareList, AllSlugs, StudentDeployments, SpareURLsOf;
    var made := Create(c.store, NamespaceKey(j.ns), NamespaceObject(j.x), j.env.fault(NamespaceCreate));
    var c0 := c.(store := made.store);
    NamespaceUnseen(j, c.store, c0.store);
    var d := LoopsRecover(j, c0);
    var t := d.(store := Cleanup(j, d.store, ValidSlugs(d.status)).store);
    CleanedExactly(j, c0.store, d);
    SameOrigins(j, c.store, c0.store, t);
    RestoredGate(j, c.store, t);
    var o := ReconcileProvisioning(j, c);
    assert o == Settle(j, d, true);
    RestoredByLists(j, c.store, t, o.c);
  }

  lemma RestoredByLists(j: Job, s0: Cluster, c: Ctx, d: Ctx)
    requires Restored(j, s0, c) && d.store == c.store
    requires d.status.students == c.status.students && d.status.spares == c.status.spares
    ensures Restored(j, s0, d) && AllSlugs(d.status) == AllSlugs(c.status)
  {
    hide InstanceKey, StudentRestored, SpareRestored;
    assert AllSlugs(d.status) == AllSlugs(c.status);
  }

  lemma StartsProvisioning(j: Job, c: Ctx)
    requires Rank(c.status.phase) <= 1 && (Rank(c.status.phase) == 0 ==> ComputeSchedule(j.spec).provision <= j.now)
    ensures var b := Begin(j, c);
            && b.status.phase == Phase.Provisioning && b.store == c.store
            && b.status.students == c.status.students && b.status.spares == c.status.spares
            && Reconcile(j, c).c == Finish(j, ReconcileProvisioning(j, b).c)
            && Reconcile(j, c).err == ReconcileProvisioning(j, b).err
  {
    hide ComputeSchedule, ReconcileProvisioning, Finish;
  }

  /** So a status that was lost altogether, phase included, is rebuilt by the first clean pass. */
  lemma LostStatusRecovered(j: Job, c: Ctx)
    requires j.env.Valid() && j.env.Calm() && FreshSlugs(j, c.store) && Leftover(j, c.store)
    requires DistinctIDs(j.spec) && j.spec.spares >= 0 && j.ns != ""
    requires c.status == EmptyStatus && ComputeSchedule(j.spec).provision <= j.now
    ensures var o := Reconcile(j, c);
            && !o.err && Restored(j, c.store, o.c)
            && (o.c.status.phase == Ready <==>
                  forall slug :: slug in AllSlugs(o.c.status) ==> IsReady(o.c.store, DeploymentKey(j.ns, slug)))
  {
    hide Reconcile, Begin, ComputeSchedule, ReconcileProvisioning, Summarize, Restored, Leftover, FreshSlugs, AllSlugs, IsReady;
    StartsProvisioning(j, c);
    var b := Begin(j, c);
    RecoveryConverges(j, b);
    var o := ReconcileProvisioning(j, b).c;
    RestoredByLists(j, c.store, o, Finish(j, o));
  }
}
