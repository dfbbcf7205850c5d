/** Which slugs a clean pass gives to entries that have none yet, and when one of them is taken already. */
module Taking {
  import opened Prelude
  import opened ExamApi
  import opened Policy
  import opened Objects
  import opened Store
  import opened Oracle
  import opened Pass
  import opened Alignment
  import opened Footprint
  import opened Interference
  import opened Tidiness
  import opened Gate
  import opened Recovery
  import opened Sharing

  /** A purpose for which the loops have yet to ask, from student `a` and spare `b` on. */
  predicate Later(who: Who, a: nat, b: nat) {
    match who
    case StudentAt(p) => p >= a
    case SpareAt(p) => p >= b
    case EntryAt(_) => false
  }

  /** The slugs still to be generated differ from each other, from all recorded and all deployed. */
  ghost predicate FreshLeft(j: Job, st: Status, s: Cluster, a: nat, b: nat) {
    && (forall who :: j.env.slug(who).Some?)
    && (forall p, q :: j.env.slug(p) == j.env.slug(q) ==> p == q)
    && forall who :: Later(who, a, b) ==>
         j.env.slug(who).value !in AllSlugs(st) && DeploymentKey(j.ns, j.env.slug(who).value) !in s
  }

  ghost predicate Ordinary(j: Job) {
    j.env.Valid() && j.env.Calm() && DistinctIDs(j.spec)
  }

  predicate HasDeployment(j: Job, s: Cluster, slug: string) {
    DeploymentKey(j.ns, slug) in s
  }

  /** The deployment listed first for a student without entry carries a slug that is recorded. */
  ghost predicate StudentTakesAt(j: Job, st: Status, s: Cluster, k: nat)
    requires k < |j.spec.students|
  {
    |st.students| <= k && LeftoverStudentSlug(j, s, k) != "" && LeftoverStudentSlug(j, s, k) in AllSlugs(st)
  }

  ghost predicate StudentTakesFrom(j: Job, st: Status, s: Cluster, i: nat) {
    exists k :: i <= k < |j.spec.students| && StudentTakesAt(j, st, s, k)
  }

  /** The spare slot is blank, or lies beyond the list. */
  predicate Unfilled(st: Status, p: nat) {
    p >= |st.spares| || st.spares[p].slug == ""
  }

  /** The recorded spare slugs from slot `lo` up to slot `hi`. */
  function Recorded(st: Status, lo: nat, hi: nat): set<string> {
    set b | 0 <= b < |st.spares| && lo <= b < hi && st.spares[b].slug != "" :: st.spares[b].slug
  }

  /** The slugs of spare deployments that slot `p` will find: those that are there, and those that are
      recorded before it and have yet to be deployed. */
  ghost function Seen(j: Job, st: Status, s: Cluster, p: nat): set<string> {
    SpareSet(j, s) + set slug | slug in Recorded(st, 0, p) && !HasDeployment(j, s, slug)
  }

  /** The members in ascending order. */
  ghost function Ascending(slugs: set<string>): (r: seq<string>)
    ensures Sorted(r) && NoDup(r) && Elements(r) == slugs && |r| == |slugs|
  {
    var q := Listing(slugs);
    SortOfListing(q, q);
    SortIsSorted(q);
    Pigeonhole(SortStrings(q));
    assert Elements(q) == slugs;
    SortStrings(q)
  }

  /** An unfilled slot `p` finds more than `p` slugs, and the one at index `p` is recorded already. */
  ghost predicate SpareTakesAt(j: Job, st: Status, s: Cluster, p: nat) {
    Unfilled(st, p)
    && p < |Ascending(Seen(j, st, s, p))| && Ascending(Seen(j, st, s, p))[p] in AllSlugs(st)
  }

  ghost predicate SpareTakesFrom(j: Job, st: Status, s: Cluster, i: nat) {
    exists p :: i <= p < j.spec.spares && SpareTakesAt(j, st, s, p)
  }

  /** How far the loops are, with nothing shared so far. */
  ghost predicate InHand(j: Job, c: Ctx, a: nat, b: nat) {
    && GoodLists(j.platform.domain, j.spec, c.status) && Tidy(j.x, j.ns, c.store)
    && !Shares(c.status) && FreshLeft(j, c.status, c.store, a, b)
  }

  // Lists of slugs.

  /** All slugs after a student's entry has been set, to the slug it has or at the end. */
  lemma SlugsAfterStudent(j: Job, st: Status, i: nat, slug: string, phase: InstancePhase)
    requires i <= |st.students| && i < |j.spec.students|
    requires i < |st.students| ==> st.students[i].slug == slug
    ensures AllSlugs(SetStudent(j, st, i, slug, phase)) ==
              if i < |st.students| then AllSlugs(st)
              else AllSlugs(st)[..|st.students|] + [slug] + AllSlugs(st)[|st.students|..]
  {
    hide InstanceURL;
  }

  lemma NewSlugShared(st: Status, st': Status, slug: string, n: nat)
    requires !Shares(st) && slug !in AllSlugs(st) && n <= |AllSlugs(st)|
    requires AllSlugs(st') == AllSlugs(st)[..n] + [slug] + AllSlugs(st)[n..]
    ensures !Shares(st')
  {
    hide AllSlugs;
    var q, r := AllSlugs(st), AllSlugs(st');
    forall a, b | 0 <= a < b < |r| && r[a] == r[b] ensures r[a] == "" {
      var x := if a < n then a else a - 1;
      var y := if b < n then b else b - 1;
      if a != n && b != n {
        assert r[a] == q[x] && r[b] == q[y];
      }
    }
  }

  lemma FreshAfter(j: Job, c: Ctx, d: Ctx, a: nat, b: nat, a': nat, b': nat, slug: string)
    requires FreshLeft(j, c.status, c.store, a, b) && a <= a' && b <= b'
    requires forall e :: e in AllSlugs(d.status) ==> e == slug || e in AllSlugs(c.status)
    requires forall k: Key :: k in d.store && k.kind == DeploymentKind && k.namespace == j.ns ==> k in c.store || k == DeploymentKey(j.ns, slug)
    requires forall who :: Later(who, a', b') ==> j.env.slug(who) != Some(slug)
    ensures FreshLeft(j, d.status, d.store, a', b')
  {
    hide AllSlugs;
    forall who | Later(who, a', b')
      ensures j.env.slug(who).value !in AllSlugs(d.status) && DeploymentKey(j.ns, j.env.slug(who).value) !in d.store
    {
      assert Later(who, a, b);
    }
  }

  lemma SlugsSome(j: Job, c: Ctx, i: nat)
    requires Ordinary(j) && i < |j.spec.students|
    ensures FindStudentSlug(j, c, i).Some?
  {
    hide LeftoverStudentSlug;
  }

  lemma StudentsInSlugs(st: Status)
    ensures |st.students| <= |AllSlugs(st)|
  {
  }

  lemma SameSlugsShare(a: Status, b: Status)
    requires AllSlugs(a) == AllSlugs(b)
    ensures Shares(a) <==> Shares(b)
  {
  }

  lemma UnusedSlug(j: Job, c: Ctx, who: Who, a: nat, b: nat)
    requires FreshLeft(j, c.status, c.store, a, b) && Later(who, a, b)
    ensures j.env.slug(who).Some? && j.env.slug(who).value !in AllSlugs(c.status)
    ensures DeploymentKey(j.ns, j.env.slug(who).value) !in c.store
  {
  }

  lemma OtherSlugs(j: Job, c: Ctx, who: Who, other: Who, a: nat, b: nat)
    requires FreshLeft(j, c.status, c.store, a, b) && who != other
    ensures j.env.slug(who) != j.env.slug(other)
  {
  }

  lemma RecordedNotLater(j: Job, c: Ctx, who: Who, i: nat, slug: string)
    requires FreshLeft(j, c.status, c.store, i, 0) && Later(who, i + 1, 0)
    requires i < |c.status.students| && c.status.students[i].slug == slug
    ensures j.env.slug(who) != Some(slug)
  {
    assert AllSlugs(c.status)[i] == slug;
    assert Later(who, i, 0);
  }

  lemma SlugsFrom(j: Job, a: Status, b: Status, i: nat, slug: string)
    requires i <= |a.students| && AllSlugs(b) ==
               if i < |a.students| then AllSlugs(a) else AllSlugs(a)[..|a.students|] + [slug] + AllSlugs(a)[|a.students|..]
    ensures forall e :: e in AllSlugs(b) ==> e == slug || e in AllSlugs(a)
  {
    StudentsInSlugs(a);
  }

  lemma OnlyNewDeployment(j: Job, c: Ctx, d: Ctx, slug: string)
    requires forall k :: k in d.store && k !in c.store ==> InstanceKey(j.ns, k) && SlugOf(k.name) == slug
    ensures forall k: Key :: k in d.store && k.kind == DeploymentKind && k.namespace == j.ns ==> k in c.store || k == DeploymentKey(j.ns, slug)
  {
  }

  lemma InsertedShared(st: Status, st': Status, slug: string, n: nat)
    requires slug in AllSlugs(st) && slug != "" && n <= |AllSlugs(st)|
    requires AllSlugs(st') == AllSlugs(st)[..n] + [slug] + AllSlugs(st)[n..]
    ensures Shares(st')
  {
    hide AllSlugs;
    var q, r := AllSlugs(st), AllSlugs(st');
    var e :| 0 <= e < |q| && q[e] == slug;
    if e < n {
      assert r[e] == r[n] == slug;
    } else {
      assert r[n] == r[e + 1] == slug;
    }
  }

  // Students.

  lemma LeftoverIsHers(j: Job, s: Cluster, k: nat)
    requires j.env.Valid() && DistinctIDs(j.spec) && Tidy(j.x, j.ns, s) && k < |j.spec.students| && LeftoverStudentSlug(j, s, k) != ""
    ensures HasDeployment(j, s, LeftoverStudentSlug(j, s, k))
    ensures Label(s, DeploymentKey(j.ns, LeftoverStudentSlug(j, s, k)), LabelStudent) == j.spec.students[k].id
  {
    hide Selects, OwnerLabels, Made, Tidy;
    var id := j.spec.students[k].id;
    var mine := StudentDeployments(j, s, id);
    var items := j.env.order(Lookup(StudentAt(k)), mine);
    assert Enumerates(items, mine);
    assert items[0] in items;
    StudentsAreOwned(j, s, id, items[0]);
    OwnedDeployment(j, s, items[0]);
    SelectedStudent(j.x, id, s[items[0]].labels);
  }

  /** A recorded student keeps her slug; another takes the leftover listed first, or a fresh one. */
  lemma StudentNext(j: Job, c: Ctx, i: nat)
    requires j.env.Valid() && DistinctIDs(j.spec) && GoodLists(j.platform.domain, j.spec, c.status) && i < |j.spec.students| && i <= |c.status.students|
    ensures FindStudentSlug(j, c, i) ==
              if i < |c.status.students| then Some(c.status.students[i].slug)
              else if LeftoverStudentSlug(j, c.store, i) != "" then Some(LeftoverStudentSlug(j, c.store, i))
              else j.env.slug(StudentAt(i))
  {
    hide LeftoverStudentSlug, InstanceURL;
    if i < |c.status.students| {
      assert GoodStudent(j.platform.domain, j.spec, i, c.status.students[i]);
      StudentSlugAgrees(j, c, i, i);
    } else {
      forall k | 0 <= k < |c.status.students| ensures c.status.students[k].id != j.spec.students[i].id {
        assert GoodStudent(j.platform.domain, j.spec, k, c.status.students[k]);
      }
      UnknownID(c.status.students, j.spec.students[i].id);
    }
  }

  /** An instance made for a student adds no spare deployment. */
  lemma StudentAddsNoSpare(j: Job, s: Cluster, who: Who, id: string, slug: string)
    requires j.env.Calm() && id != ""
    ensures SpareSet(j, ProvisionInstance(j, s, who, id, slug).store) == SpareSet(j, s)
  {
    hide ProvisionInstance, Labels, Selects, OwnerLabels;
    CalmInstance(j, s, who, id, slug);
    LabelsStudent(j.x, id, slug);
    var t := ProvisionInstance(j, s, who, id, slug).store;
    forall e ensures e in SpareSet(j, t) <==> e in SpareSet(j, s) {
      if e in SpareSet(j, t) {
        var k :| k in Owned(j, t, DeploymentKind) && IsSpare(t, k) && Label(t, k, LabelSlug) == e;
        assert k in s by { assert k == DeploymentKey(j.ns, slug) || k in s; }
        assert k in Owned(j, s, DeploymentKind) && IsSpare(s, k);
      }
      if e in SpareSet(j, s) {
        var k :| k in Owned(j, s, DeploymentKind) && IsSpare(s, k) && Label(s, k, LabelSlug) == e;
        assert k in Owned(j, t, DeploymentKind) && IsSpare(t, k) && Label(t, k, LabelSlug) == e;
      }
    }
  }

  /** Nor does it change what is listed for another student. */
  lemma OthersLeftover(j: Job, s: Cluster, who: Who, id: string, slug: string, k: nat)
    requires Ordinary(j) && k < |j.spec.students| && id != "" && id != j.spec.students[k].id
    ensures LeftoverStudentSlug(j, ProvisionInstance(j, s, who, id, slug).store, k) == LeftoverStudentSlug(j, s, k)
  {
    hide ProvisionInstance, Labels, OwnerLabels, StudentSelector, Selects;
    var other := j.spec.students[k].id;
    var t := ProvisionInstance(j, s, who, id, slug).store;
    CalmInstance(j, s, who, id, slug);
    LabelsStudent(j.x, id, slug);
    forall o ensures o in StudentDeployments(j, t, other) <==> o in StudentDeployments(j, s, other) {
      if o in StudentDeployments(j, t, other) {
        SelectedStudent(j.x, other, t[o].labels);
        assert o in s by { assert o == DeploymentKey(j.ns, slug) || o in s; }
      }
    }
    var mine := StudentDeployments(j, s, other);
    assert StudentDeployments(j, t, other) == mine;
    var items := j.env.order(Lookup(StudentAt(k)), mine);
    assert Enumerates(items, mine);
    if items != [] {
      assert items[0] in items;
      assert items[0] in mine;
      assert Label(t, items[0], LabelSlug) == Label(s, items[0], LabelSlug);
    }
  }

  /** What the deployment of a student's new slug is labelled with. */
  lemma NewSlugIsHers(j: Job, c: Ctx, i: nat)
    requires Ordinary(j) && InHand(j, c, i, 0) && i < |j.spec.students| && i == |c.status.students|
    ensures FindStudentSlug(j, c, i).Some?
    ensures var slug, id := FindStudentSlug(j, c, i).value, j.spec.students[i].id;
            var t := ProvisionInstance(j, c.store, StudentAt(i), id, slug).store;
            HasDeployment(j, t, slug) && Label(t, DeploymentKey(j.ns, slug), LabelStudent) == id
  {
    hide ProvisionInstance, Labels, LeftoverStudentSlug, Tidy, FindStudentSlug, FreshLeft, Shares, GoodLists;
    StudentNext(j, c, i);
    assert FindStudentSlug(j, c, i).Some? by { hide *; SlugsSome(j, c, i); }
    var slug, id := FindStudentSlug(j, c, i).value, j.spec.students[i].id;
    CalmInstance(j, c.store, StudentAt(i), id, slug);
    DeploymentIsInstanceKey(j.ns, slug);
    assert SlugOf(DeploymentKey(j.ns, slug).name) == slug;
    LabelsStudent(j.x, id, slug);
    if LeftoverStudentSlug(j, c.store, i) != "" {
      LeftoverIsHers(j, c.store, i);
    } else {
      UnusedSlug(j, c, StudentAt(i), i, 0);
    }
  }

  lemma HersIsNoSpare(j: Job, s: Cluster, slug: string)
    requires Tidy(j.x, j.ns, s) && Label(s, DeploymentKey(j.ns, slug), LabelStudent) != ""
    ensures slug !in SpareSet(j, s)
  {
    hide Made, Tidy;
    if slug in SpareSet(j, s) {
      LeftoverSpare(j, s, slug);
    }
  }

  /** The parts of an outcome that do not depend on whether the slug was taken. */
  lemma StudentKeeps(j: Job, c: Ctx, i: nat)
    requires Ordinary(j) && InHand(j, c, i, 0) && i < |j.spec.students| && i <= |c.status.students|
    ensures FindStudentSlug(j, c, i).Some? && FindStudentSlug(j, c, i).value != ""
    ensures var slug := FindStudentSlug(j, c, i).value;
            var d := ProvisionStudent(j, c, i, slug);
            && GoodLists(j.platform.domain, j.spec, d.status) && Tidy(j.x, j.ns, d.store) && i < |d.status.students|
            && d.status.spares == c.status.spares && Frozen(c.status, d.status)
            && d.status == SetStudent(j, c.status, i, slug, InstancePhase.Provisioned)
            && d.store == ProvisionInstance(j, c.store, StudentAt(i), j.spec.students[i].id, slug).store
  {
    hide FreshLeft, InstanceURL, Made, Tidy, ProvisionInstance, FindStudentSlug, Shares, Labels, Changes, GoodStudent, GoodSpare;
    var id := j.spec.students[i].id;
    assert FindStudentSlug(j, c, i).Some? by { hide *; SlugsSome(j, c, i); }
    var slug := FindStudentSlug(j, c, i).value;
    StudentSlugNotEmpty(j, c, i);
    ProvisionStudentAligned(j, c, i);
    CalmInstance(j, c.store, StudentAt(i), id, slug);
    InstanceChanges(j, c.store, StudentAt(i), id, slug);
    ChangesTidy(j.x, j.ns, j.spec.template, false, c.store, ProvisionStudent(j, c, i, slug).store);
  }

  /** A student without entry whose leftover is recorded for another makes a slug be recorded twice. */
  lemma StudentTaken(j: Job, c: Ctx, i: nat)
    requires Ordinary(j) && InHand(j, c, i, 0) && i < |j.spec.students| && i <= |c.status.students|
    requires StudentTakesAt(j, c.status, c.store, i)
    ensures FindStudentSlug(j, c, i).Some?
    ensures Shares(ProvisionStudent(j, c, i, FindStudentSlug(j, c, i).value).status)
  {
    hide FreshLeft, InstanceURL, Tidy, ProvisionInstance, FindStudentSlug, AllSlugs, Shares, LeftoverStudentSlug, GoodLists,
         ProvisionStudent;
    StudentKeeps(j, c, i);
    StudentNext(j, c, i);
    var slug := FindStudentSlug(j, c, i).value;
    SlugsAfterStudent(j, c.status, i, slug, InstancePhase.Provisioned);
    StudentsInSlugs(c.status);
    InsertedShared(c.status, ProvisionStudent(j, c, i, slug).status, slug, i);
  }

  /** Any other student is recorded without sharing a slug. */
  lemma StudentDone(j: Job, c: Ctx, i: nat)
    requires Ordinary(j) && InHand(j, c, i, 0) && i < |j.spec.students| && i <= |c.status.students|
    requires !StudentTakesAt(j, c.status, c.store, i)
    ensures FindStudentSlug(j, c, i).Some?
    ensures InHand(j, ProvisionStudent(j, c, i, FindStudentSlug(j, c, i).value), i + 1, 0)
  {
    hide FreshLeft, InstanceURL, Tidy, ProvisionInstance, FindStudentSlug, AllSlugs, Shares, Labels, GoodStudent, GoodSpare,
         LeftoverStudentSlug, ProvisionStudent;
    StudentKeeps(j, c, i);
    StudentNext(j, c, i);
    var who, id := StudentAt(i), j.spec.students[i].id;
    var slug := FindStudentSlug(j, c, i).value;
    var d := ProvisionStudent(j, c, i, slug);
    CalmInstance(j, c.store, who, id, slug);
    SlugsAfterStudent(j, c.status, i, slug, InstancePhase.Provisioned);
    if i == |c.status.students| {
      if LeftoverStudentSlug(j, c.store, i) == "" {
        UnusedSlug(j, c, who, i, 0);
      }
      NewSlugShared(c.status, d.status, slug, i) by { StudentsInSlugs(c.status); }
    } else {
      SameSlugsShare(c.status, d.status);
    }
    forall w | Later(w, i + 1, 0) ensures j.env.slug(w) != Some(slug) {
      if i < |c.status.students| {
        RecordedNotLater(j, c, w, i, slug);
      } else if LeftoverStudentSlug(j, c.store, i) == "" {
        OtherSlugs(j, c, who, w, i, 0);
      } else {
        LeftoverIsHers(j, c.store, i);
        DeployedNotLater(j, c, w, i, 0, i + 1, 0, slug);
      }
    }
    FreshAfter(j, c, d, i, 0, i + 1, 0, slug) by { SlugsFrom(j, c.status, d.status, i, slug); OnlyNewDeployment(j, c, d, slug); }
  }

  lemma DeployedNotLater(j: Job, c: Ctx, who: Who, a: nat, b: nat, a': nat, b': nat, slug: string)
    requires FreshLeft(j, c.status, c.store, a, b) && Later(who, a', b') && a <= a' && b <= b' && HasDeployment(j, c.store, slug)
    ensures j.env.slug(who) != Some(slug)
  {
    assert Later(who, a, b);
  }

  /** Recording a student changes nothing for the others and for the spares. */
  lemma StudentLeavesOthers(j: Job, c: Ctx, i: nat)
    requires Ordinary(j) && InHand(j, c, i, 0) && i < |j.spec.students| && i <= |c.status.students|
    requires !StudentTakesAt(j, c.status, c.store, i)
    ensures FindStudentSlug(j, c, i).Some?
    ensures var d := ProvisionStudent(j, c, i, FindStudentSlug(j, c, i).value);
            && (StudentTakesFrom(j, c.status, c.store, i) <==> StudentTakesFrom(j, d.status, d.store, i + 1))
            && (SpareTakesFrom(j, c.status, c.store, 0) <==> SpareTakesFrom(j, d.status, d.store, 0))
  {
    hide FreshLeft, InstanceURL, Tidy, ProvisionInstance, FindStudentSlug, AllSlugs, Shares, GoodLists, ProvisionStudent,
         StudentTakesAt, SpareTakesAt;
    StudentKeeps(j, c, i);
    StudentDone(j, c, i);
    var slug := FindStudentSlug(j, c, i).value;
    var d := ProvisionStudent(j, c, i, slug);
    forall k | i < k < |j.spec.students|
      ensures StudentTakesAt(j, c.status, c.store, k) <==> StudentTakesAt(j, d.status, d.store, k)
    {
      OtherStudentTakes(j, c, i, k);
    }
    forall p | 0 <= p < j.spec.spares
      ensures SpareTakesAt(j, c.status, c.store, p) <==> SpareTakesAt(j, d.status, d.store, p)
    {
      SpareTakesStill(j, c, i, p);
    }
  }

  lemma NewOrOld(j: Job, c: Ctx, i: nat, e: string)
    requires Ordinary(j) && InHand(j, c, i, 0) && i < |j.spec.students| && i <= |c.status.students|
    requires FindStudentSlug(j, c, i).Some?
    ensures var slug := FindStudentSlug(j, c, i).value;
            var d := ProvisionStudent(j, c, i, slug);
            e in AllSlugs(d.status) <==> e in AllSlugs(c.status) || (i == |c.status.students| && e == slug)
  {
    hide FreshLeft, InstanceURL, Tidy, ProvisionInstance, FindStudentSlug, AllSlugs, Shares, GoodLists, LeftoverStudentSlug,
         ProvisionStudent;
    StudentKeeps(j, c, i);
    StudentNext(j, c, i);
    SlugsAfterStudent(j, c.status, i, FindStudentSlug(j, c, i).value, InstancePhase.Provisioned);
    InsertedElements(AllSlugs(c.status), FindStudentSlug(j, c, i).value, i, e) by { StudentsInSlugs(c.status); }
  }

  lemma InsertedElements(q: seq<string>, slug: string, n: nat, e: string)
    requires n <= |q|
    ensures e in q[..n] + [slug] + q[n..] <==> e in q || e == slug
  {
    assert q == q[..n] + q[n..];
  }

  lemma OtherStudentTakes(j: Job, c: Ctx, i: nat, k: nat)
    requires Ordinary(j) && InHand(j, c, i, 0) && i < k < |j.spec.students| && i <= |c.status.students|
    requires FindStudentSlug(j, c, i).Some?
    ensures var d := ProvisionStudent(j, c, i, FindStudentSlug(j, c, i).value);
            StudentTakesAt(j, c.status, c.store, k) <==> StudentTakesAt(j, d.status, d.store, k)
  {
    hide FreshLeft, InstanceURL, Tidy, ProvisionInstance, FindStudentSlug, AllSlugs, Shares, GoodLists, LeftoverStudentSlug,
         ProvisionStudent, Label;
    StudentKeeps(j, c, i);
    var slug, id := FindStudentSlug(j, c, i).value, j.spec.students[i].id;
    OthersLeftover(j, c.store, StudentAt(i), id, slug, k);
    var taken := LeftoverStudentSlug(j, c.store, k);
    NewOrOld(j, c, i, taken);
    if taken != "" && i == |c.status.students| {
      LeftoverIsHers(j, c.store, k);
      NewSlugIsHers(j, c, i);
      LabelKept(j, c.store, StudentAt(i), id, slug, DeploymentKey(j.ns, taken));
    }
  }

  lemma LabelKept(j: Job, s: Cluster, who: Who, student: string, slug: string, k: Key)
    requires j.env.Calm() && k in s
    ensures Label(ProvisionInstance(j, s, who, student, slug).store, k, LabelStudent) == Label(s, k, LabelStudent)
  {
    hide ProvisionInstance;
    CalmInstance(j, s, who, student, slug);
  }

  lemma SpareTakesStill(j: Job, c: Ctx, i: nat, p: nat)
    requires Ordinary(j) && InHand(j, c, i, 0) && i < |j.spec.students| && i <= |c.status.students|
    requires FindStudentSlug(j, c, i).Some? && InHand(j, ProvisionStudent(j, c, i, FindStudentSlug(j, c, i).value), i + 1, 0)
    ensures var d := ProvisionStudent(j, c, i, FindStudentSlug(j, c, i).value);
            SpareTakesAt(j, c.status, c.store, p) <==> SpareTakesAt(j, d.status, d.store, p)
  {
    hide FreshLeft, InstanceURL, Tidy, ProvisionInstance, FindStudentSlug, AllSlugs, Shares, GoodLists, LeftoverStudentSlug,
         ProvisionStudent, Label, SpareSet, HasDeployment;
    StudentKeeps(j, c, i);
    var slug, id := FindStudentSlug(j, c, i).value, j.spec.students[i].id;
    var d := ProvisionStudent(j, c, i, slug);
    StudentAddsNoSpare(j, c.store, StudentAt(i), id, slug);
    CalmInstance(j, c.store, StudentAt(i), id, slug);
    forall e | e in Recorded(c.status, 0, p) ensures e != slug && (HasDeployment(j, d.store, e) <==> HasDeployment(j, c.store, e)) {
      var b :| 0 <= b < |c.status.spares| && c.status.spares[b].slug == e && e != "";
      if e == slug {
        StudentSpareShare(d.status, i, b) by { SlugSet(j, c, i); }
        assert false;
      }
      OtherDeployment(j, c.store, d.store, slug, e);
    }
    assert Seen(j, d.status, d.store, p) == Seen(j, c.status, c.store, p);
    var l := Ascending(Seen(j, c.status, c.store, p));
    if p < |l| {
      assert l[p] in Elements(l);
      NewOrOld(j, c, i, l[p]);
      if i == |c.status.students| {
        NewSlugIsHers(j, c, i);
        HersIsNoSpare(j, d.store, slug);
      }
    }
  }

  lemma SlugSet(j: Job, c: Ctx, i: nat)
    requires i < |j.spec.students| && FindStudentSlug(j, c, i).Some?
    ensures var slug := FindStudentSlug(j, c, i).value;
            var d := ProvisionStudent(j, c, i, slug);
            i < |d.status.students| && d.status.students[i].slug == slug && d.status.spares == c.status.spares
  {
    hide FindStudentSlug, ProvisionInstance, InstanceURL;
  }

  lemma OtherDeployment(j: Job, s: Cluster, t: Cluster, slug: string, e: string)
    requires e != slug && forall k :: k in s ==> k in t
    requires forall k :: k in t && k !in s ==> InstanceKey(j.ns, k) && SlugOf(k.name) == slug
    ensures HasDeployment(j, t, e) <==> HasDeployment(j, s, e)
  {
  }

  /** The student loop repeats a slug exactly when some student without entry takes a recorded one; and if
      it does not, what the spares will find is as before. */
  lemma {:induction false} StudentsTake(j: Job, c: Ctx, i: nat, healthy: bool)
    requires Ordinary(j) && InHand(j, c, i, 0) && i <= |j.spec.students| && i <= |c.status.students|
    ensures var r := ProvisionStudents(j, c, i, healthy).c;
            && (Shares(r.status) <==> StudentTakesFrom(j, c.status, c.store, i))
            && (!Shares(r.status) ==>
                  InHand(j, r, |j.spec.students|, 0)
                  && (SpareTakesFrom(j, r.status, r.store, 0) <==> SpareTakesFrom(j, c.status, c.store, 0)))
    decreases |j.spec.students| - i
  {
    hide FreshLeft, Shares, Tidy, ProvisionInstance, ProvisionStudent, FindStudentSlug, GoodLists, StudentTakesAt,
         SpareTakesFrom;
    if i < |j.spec.students| {
      StudentKeeps(j, c, i);
      var slug := FindStudentSlug(j, c, i).value;
      var d := ProvisionStudent(j, c, i, slug);
      var ok := !ProvisionInstance(j, c.store, StudentAt(i), j.spec.students[i].id, slug).err;
      if StudentTakesAt(j, c.status, c.store, i) {
        StudentTaken(j, c, i);
        ProvisionStudentsAligned(j, d, i + 1, healthy && ok);
        SharedForGood(d.status, ProvisionStudents(j, d, i + 1, healthy && ok).c.status);
      } else {
        StudentDone(j, c, i);
        StudentLeavesOthers(j, c, i);
        StudentsTake(j, d, i + 1, healthy && ok);
      }
    }
  }

  // Ascending lists.

  /** What comes before the one at `p` was found before it, or is new. */
  lemma BelowAgain(l: seq<string>, r: seq<string>, i: nat, p: nat, q: nat)
    requires Sorted(l) && Sorted(r) && NoDup(r) && q < p < |r| && i < |l| && l[i] == r[p] && r[q] in l
    ensures r[q] in l[..i]
  {
    assert AtMost(r[q], r[p]) && r[q] != r[p];
    var k :| 0 <= k < |l| && l[k] == r[q];
    if k > i {
      assert AtMost(l[i], l[k]);
      AtMostAntisymmetric(l[i], l[k]);
    }
    assert l[..i][k] == r[q];
  }

  /** Finding fewer than `p - i` new slugs on top of `found`, the member at index `i` does not move to `p`. */
  lemma NotAgain(found: set<string>, more: set<string>, i: nat, p: nat, e: string)
    requires found <= more && |more - found| < p - i
    requires i < |Ascending(found)| && Ascending(found)[i] == e && p < |Ascending(more)|
    ensures Ascending(more)[p] != e
  {
    hide Sorted, AtMost, NoDup, Ascending;
    var l, r := Ascending(found), Ascending(more);
    if r[p] == e {
      var below := Elements(r[..p]);
      assert NoDup(r[..p]) && NoDup(l[..i]) by { FrontNoDup(r, p); FrontNoDup(l, i); }
      Pigeonhole(r[..p]);
      Pigeonhole(l[..i]);
      forall x | x in below ensures x in Elements(l[..i]) + (more - found) {
        var q :| 0 <= q < p && r[q] == x;
        assert x in Elements(r);
        if x in found {
          assert x in Elements(l);
          BelowAgain(l, r, i, p, q);
        }
      }
      SubsetCardinality(below, Elements(l[..i]) + (more - found));
      assert false;
    }
  }

  lemma FrontNoDup(q: seq<string>, n: nat)
    requires NoDup(q) && n <= |q|
    ensures NoDup(q[..n])
  {
  }

  lemma OneMoreRecorded(st: Status, lo: nat, hi: nat)
    requires lo < hi
    ensures hi - 1 < |st.spares| && st.spares[hi - 1].slug != "" ==>
              Recorded(st, lo, hi) == Recorded(st, lo, hi - 1) + {st.spares[hi - 1].slug}
    ensures hi - 1 >= |st.spares| || st.spares[hi - 1].slug == "" ==> Recorded(st, lo, hi) == Recorded(st, lo, hi - 1)
  {
  }

  lemma {:induction false} FewRecorded(st: Status, lo: nat, hi: nat)
    ensures |Recorded(st, lo, hi)| <= if lo < hi then hi - lo else 0
    decreases hi
  {
    if lo < hi {
      hide Recorded;
      FewRecorded(st, lo, hi - 1);
      OneMoreRecorded(st, lo, hi);
    } else {
      assert Recorded(st, lo, hi) == {};
    }
  }

  lemma SameAscending(a: seq<string>, slugs: set<string>)
    requires NoDup(a) && Elements(a) == slugs && Sorted(a)
    ensures a == Ascending(slugs)
  {
    ListingMultiset(a);
    ListingMultiset(Ascending(slugs));
    SortedUnique(a, Ascending(slugs));
  }

  // Spares.

  /** The first `i` spare slots are filled and deployed. */
  ghost predicate FilledTo(j: Job, c: Ctx, i: nat) {
    i <= |c.status.spares|
    && forall b :: 0 <= b < i ==> c.status.spares[b].slug != "" && HasDeployment(j, c.store, c.status.spares[b].slug)
  }

  lemma SparesDiffer(st: Status, a: nat, b: nat)
    requires !Shares(st) && a < |st.spares| && b < |st.spares| && a != b && st.spares[a].slug == st.spares[b].slug
    ensures st.spares[a].slug == ""
  {
    var n := |st.students|;
    assert AllSlugs(st)[n + a] == st.spares[a].slug && AllSlugs(st)[n + b] == st.spares[b].slug;
  }

  lemma TwoSparesShare(st: Status, a: nat, b: nat)
    requires a < |st.spares| && b < |st.spares| && a != b && st.spares[a].slug == st.spares[b].slug != ""
    ensures Shares(st)
  {
    var n := |st.students|;
    var p, q := if a < b then n + a else n + b, if a < b then n + b else n + a;
    assert AllSlugs(st)[p] == AllSlugs(st)[q] == st.spares[a].slug;
  }

  lemma SlugsAfterSpare(j: Job, st: Status, i: nat, slug: string)
    requires i <= |st.spares| && (i < |st.spares| ==> st.spares[i].slug in {"", slug})
    ensures var all, all' := AllSlugs(st), AllSlugs(SetSpare(j, st, i, slug, InstancePhase.Provisioned));
            var n := |st.students| + i;
            && n <= |all|
            && (i == |st.spares| ==> all' == all + [slug])
            && (i < |st.spares| ==> all' == all[n := slug])
  {
    hide InstanceURL;
  }

  lemma FilledNotShared(st: Status, st': Status, n: nat, slug: string)
    requires !Shares(st) && n <= |AllSlugs(st)|
    requires n < |AllSlugs(st)| ==> AllSlugs(st') == AllSlugs(st)[n := slug] && AllSlugs(st)[n] in {"", slug}
    requires n == |AllSlugs(st)| ==> AllSlugs(st') == AllSlugs(st) + [slug]
    requires slug in AllSlugs(st) ==> n < |AllSlugs(st)| && AllSlugs(st)[n] == slug
    ensures !Shares(st')
  {
    hide AllSlugs;
    var q, r := AllSlugs(st), AllSlugs(st');
    if n < |q| && q[n] == slug {
      assert r == q;
    } else {
      forall a, b | 0 <= a < b < |r| && r[a] == r[b] ensures r[a] == "" {
        if a != n && b != n {
          assert r[a] == q[a] && r[b] == q[b];
        }
      }
    }
  }

  lemma SlugsOfUpdate(a: seq<string>, b: seq<string>, n: nat, slug: string)
    requires n <= |a| && b == if n < |a| then a[n := slug] else a + [slug]
    ensures forall e :: e in b ==> e == slug || e in a
  {
  }

  lemma FilledMore(j: Job, c: Ctx, d: Ctx, i: nat, slug: string)
    requires FilledTo(j, c, i) && slug != "" && DeploymentKey(j.ns, slug) in d.store
    requires d.status == SetSpare(j, c.status, i, slug, InstancePhase.Provisioned)
    requires forall k :: k in c.store ==> k in d.store && d.store[k] == c.store[k]
    ensures FilledTo(j, d, i + 1)
  {
    hide InstanceURL;
  }

  lemma SpareAmong(st: Status, i: nat)
    requires i < |st.spares|
    ensures st.spares[i].slug in AllSlugs(st)
  {
    assert AllSlugs(st)[|st.students| + i] == st.spares[i].slug;
  }

  lemma SpareSlotSlug(st: Status, i: nat)
    requires i <= |st.spares|
    ensures |AllSlugs(st)| == |st.students| + |st.spares|
    ensures i < |st.spares| ==> AllSlugs(st)[|st.students| + i] == st.spares[i].slug
  {
  }

  lemma RecordedNotFresh(j: Job, c: Ctx, who: Who, n: nat, i: nat, slug: string)
    requires FreshLeft(j, c.status, c.store, n, i) && Later(who, n, i + 1)
    requires i < |c.status.spares| && c.status.spares[i].slug == slug
    ensures j.env.slug(who) != Some(slug)
  {
    SpareAmong(c.status, i);
    assert Later(who, n, i);
  }

  lemma GoodAfterSpare(j: Job, st: Status, i: nat, slug: string)
    requires GoodLists(j.platform.domain, j.spec, st) && i <= |st.spares| && i < j.spec.spares && slug != ""
    ensures GoodLists(j.platform.domain, j.spec, SetSpare(j, st, i, slug, InstancePhase.Provisioned))
  {
    hide InstanceURL, GoodStudent;
    var t := SetSpare(j, st, i, slug, InstancePhase.Provisioned);
    forall b | 0 <= b < |t.spares| ensures GoodSpare(j.platform.domain, t.spares[b]) {
      if b != i {
        assert GoodSpare(j.platform.domain, st.spares[b]);
      }
    }
  }

  /** With all slots before it deployed, a slot finds the spare deployments that are there. */
  lemma SeenAtSlot(j: Job, c: Ctx, i: nat)
    requires Ordinary(j) && Tidy(j.x, j.ns, c.store) && FilledTo(j, c, i)
    ensures Seen(j, c.status, c.store, i) == SpareSet(j, c.store)
    ensures LeftoverSpareSlugs(j, c.store, i) == Ascending(SpareSet(j, c.store))
  {
    hide Tidy, SpareSet, Made;
    ListedSpares(j, c.store, i);
    var found := SpareSlugs(c.store, j.env.order(Lookup(SpareAt(i)), Owned(j, c.store, DeploymentKind)));
    SortIsSorted(found);
    SameAscending(SortStrings(found), SpareSet(j, c.store));
  }

  /** A recorded slot keeps its slug; another takes the one at its index, or a fresh one. */
  lemma SpareNext(j: Job, c: Ctx, i: nat)
    requires Ordinary(j) && Tidy(j.x, j.ns, c.store) && FilledTo(j, c, i)
    ensures var r, l := FindSpareSlug(j, c, i), Ascending(Seen(j, c.status, c.store, i));
            && r.Some?
            && r == if !Unfilled(c.status, i) then Some(c.status.spares[i].slug)
                    else if i < |l| then Some(l[i]) else j.env.slug(SpareAt(i))
  {
    hide Tidy, SpareSet, FilledTo, LeftoverSpareSlugs, Ascending;
    SeenAtSlot(j, c, i);
  }

  /** An instance made for a spare adds its deployment to the spares, if it was not there. */
  lemma SpareAdds(j: Job, s: Cluster, who: Who, slug: string)
    requires j.env.Calm() && Tidy(j.x, j.ns, s) && slug != ""
    ensures SpareSet(j, ProvisionInstance(j, s, who, "", slug).store) ==
              SpareSet(j, s) + if HasDeployment(j, s, slug) then {} else {slug}
  {
    hide ProvisionInstance, Labels, Selects, OwnerLabels, Tidy, Changes, Made;
    var t := ProvisionInstance(j, s, who, "", slug).store;
    var made := DeploymentKey(j.ns, slug);
    CalmInstance(j, s, who, "", slug);
    DeploymentIsInstanceKey(j.ns, slug);
    assert SlugOf(made.name) == slug;
    LabelsStudent(j.x, "", slug);
    InstanceChanges(j, s, who, "", slug);
    ChangesTidy(j.x, j.ns, j.spec.template, false, s, t);
    if !HasDeployment(j, s, slug) {
      NobodysIsSpare(j, t, slug);
    }
    forall e ensures e in SpareSet(j, t) <==> e in SpareSet(j, s) || (e == slug && !HasDeployment(j, s, slug)) {
      if e in SpareSet(j, t) {
        var k :| k in Owned(j, t, DeploymentKind) && IsSpare(t, k) && Label(t, k, LabelSlug) == e;
        OwnedDeployment(j, t, k);
        if k in s {
          assert k in Owned(j, s, DeploymentKind) && IsSpare(s, k);
        }
      }
      if e in SpareSet(j, s) {
        var k :| k in Owned(j, s, DeploymentKind) && IsSpare(s, k) && Label(s, k, LabelSlug) == e;
        assert k in Owned(j, t, DeploymentKind) && IsSpare(t, k) && Label(t, k, LabelSlug) == e;
      }
    }
  }

  /** The parts of an outcome that do not depend on whether the slug was taken. */
  lemma SpareKeeps(j: Job, c: Ctx, i: nat)
    requires Ordinary(j) && InHand(j, c, |j.spec.students|, i) && FilledTo(j, c, i) && i < j.spec.spares
    ensures FindSpareSlug(j, c, i).Some? && FindSpareSlug(j, c, i).value != ""
    ensures var slug := FindSpareSlug(j, c, i).value;
            var d := ProvisionSpare(j, c, i, slug);
            && GoodLists(j.platform.domain, j.spec, d.status) && Tidy(j.x, j.ns, d.store) && FilledTo(j, d, i + 1)
            && d.status == SetSpare(j, c.status, i, slug, InstancePhase.Provisioned) && d.status.students == c.status.students
            && d.store == ProvisionInstance(j, c.store, SpareAt(i), "", slug).store
            && (i < |c.status.spares| ==> c.status.spares[i].slug in {"", slug})
  {
    hide FreshLeft, InstanceURL, Made, Tidy, ProvisionInstance, FindSpareSlug, Shares, Labels, Changes, GoodLists, Seen;
    SpareNext(j, c, i);
    SpareSlugNotEmpty(j, c, i);
    var slug := FindSpareSlug(j, c, i).value;
    var d := ProvisionSpare(j, c, i, slug);
    CalmInstance(j, c.store, SpareAt(i), "", slug);
    DeploymentIsInstanceKey(j.ns, slug);
    assert SlugOf(DeploymentKey(j.ns, slug).name) == slug;
    InstanceChanges(j, c.store, SpareAt(i), "", slug);
    ChangesTidy(j.x, j.ns, j.spec.template, false, c.store, d.store);
    GoodAfterSpare(j, c.status, i, slug);
    FilledMore(j, c, d, i, slug);
  }

  lemma InAll(st: Status, slug: string)
    requires slug in AllSlugs(st)
    ensures (exists a :: 0 <= a < |st.students| && st.students[a].slug == slug)
            || exists b :: 0 <= b < |st.spares| && st.spares[b].slug == slug
  {
    var e :| 0 <= e < |AllSlugs(st)| && AllSlugs(st)[e] == slug;
    if e < |st.students| {
      assert st.students[e].slug == slug;
    } else {
      assert st.spares[e - |st.students|].slug == slug;
    }
  }

  /** A slot that takes a recorded slug makes it be recorded twice. */
  lemma SpareTaken(j: Job, c: Ctx, i: nat)
    requires Ordinary(j) && InHand(j, c, |j.spec.students|, i) && FilledTo(j, c, i) && i < j.spec.spares
    requires SpareTakesAt(j, c.status, c.store, i)
    ensures FindSpareSlug(j, c, i).Some?
    ensures Shares(ProvisionSpare(j, c, i, FindSpareSlug(j, c, i).value).status)
  {
    hide FreshLeft, InstanceURL, Tidy, ProvisionInstance, FindSpareSlug, AllSlugs, Shares, GoodLists, Seen, ProvisionSpare,
         Ascending;
    SpareKeeps(j, c, i);
    SpareNext(j, c, i);
    var slug := FindSpareSlug(j, c, i).value;
    var d := ProvisionSpare(j, c, i, slug);
    InAll(c.status, slug);
    if a :| 0 <= a < |c.status.students| && c.status.students[a].slug == slug {
      StudentSpareShare(d.status, a, i);
    } else {
      var b :| 0 <= b < |c.status.spares| && c.status.spares[b].slug == slug;
      TwoSparesShare(d.status, i, b);
    }
  }

  /** Any other slot is filled without sharing a slug. */
  lemma SpareDone(j: Job, c: Ctx, i: nat)
    requires Ordinary(j) && InHand(j, c, |j.spec.students|, i) && FilledTo(j, c, i) && i < j.spec.spares
    requires !SpareTakesAt(j, c.status, c.store, i)
    ensures FindSpareSlug(j, c, i).Some?
    ensures InHand(j, ProvisionSpare(j, c, i, FindSpareSlug(j, c, i).value), |j.spec.students|, i + 1)
  {
    hide FreshLeft, InstanceURL, Tidy, ProvisionInstance, FindSpareSlug, AllSlugs, Shares, GoodLists, ProvisionSpare, Ascending,
         HasDeployment, SpareSet, FilledTo, Seen;
    SpareKeeps(j, c, i);
    SpareNext(j, c, i);
    var n, m := |j.spec.students|, |c.status.students| + i;
    var who, slug := SpareAt(i), FindSpareSlug(j, c, i).value;
    var d := ProvisionSpare(j, c, i, slug);
    var l := Ascending(Seen(j, c.status, c.store, i));
    assert i <= |c.status.spares| by { FilledInside(j, c, i); }
    SlugsAfterSpare(j, c.status, i, slug);
    SpareSlotSlug(c.status, i);
    if !Unfilled(c.status, i) {
      SpareAmong(c.status, i);
    } else if i >= |l| {
      UnusedSlug(j, c, who, n, i);
    }
    FilledNotShared(c.status, d.status, m, slug);
    forall w | Later(w, n, i + 1) ensures j.env.slug(w) != Some(slug) {
      if !Unfilled(c.status, i) {
        RecordedNotFresh(j, c, w, n, i, slug);
      } else if i >= |l| {
        OtherSlugs(j, c, who, w, n, i);
      } else {
        SeenIsDeployed(j, c, i, slug);
        DeployedNotLater(j, c, w, n, i, n, i + 1, slug);
      }
    }
    CalmInstance(j, c.store, who, "", slug);
    FreshAfter(j, c, d, n, i, n, i + 1, slug) by {
      OnlyNewDeployment(j, c, d, slug);
      SlugsOfUpdate(AllSlugs(c.status), AllSlugs(d.status), m, slug);
    }
  }

  lemma FilledInside(j: Job, c: Ctx, i: nat)
    requires FilledTo(j, c, i)
    ensures i <= |c.status.spares|
  {
  }

  lemma SeenIsDeployed(j: Job, c: Ctx, i: nat, slug: string)
    requires Ordinary(j) && Tidy(j.x, j.ns, c.store) && FilledTo(j, c, i)
    requires slug in Ascending(Seen(j, c.status, c.store, i))
    ensures HasDeployment(j, c.store, slug)
  {
    hide Tidy, SpareSet, Ascending, Made;
    SeenAtSlot(j, c, i);
    assert slug in Elements(Ascending(Seen(j, c.status, c.store, i)));
    LeftoverSpare(j, c.store, slug);
  }

  lemma OthersRecorded(a: Status, b: Status, j: Job, i: nat, p: nat, slug: string, e: string)
    requires i <= |a.spares| && b == SetSpare(j, a, i, slug, InstancePhase.Provisioned) && e != slug
    requires i < |a.spares| ==> a.spares[i].slug in {"", slug}
    ensures e in Recorded(a, 0, p) <==> e in Recorded(b, 0, p)
  {
    hide InstanceURL;
    if e in Recorded(a, 0, p) {
      var k :| 0 <= k < |a.spares| && k < p && a.spares[k].slug == e && e != "";
      assert b.spares[k].slug == e;
    }
    if e in Recorded(b, 0, p) {
      var k :| 0 <= k < |b.spares| && k < p && b.spares[k].slug == e && e != "";
      assert a.spares[k].slug == e;
    }
  }

  /** What a later slot finds changes only by a slug that is fresh. */
  lemma SeenLater(j: Job, c: Ctx, i: nat, p: nat)
    requires Ordinary(j) && InHand(j, c, |j.spec.students|, i) && FilledTo(j, c, i) && i < j.spec.spares && i < p
    requires !SpareTakesAt(j, c.status, c.store, i)
    ensures FindSpareSlug(j, c, i).Some?
    ensures var slug := FindSpareSlug(j, c, i).value;
            var d := ProvisionSpare(j, c, i, slug);
            Seen(j, d.status, d.store, p) ==
              Seen(j, c.status, c.store, p) + if HasDeployment(j, c.store, slug) || !Unfilled(c.status, i) then {} else {slug}
  {
    hide FreshLeft, InstanceURL, Tidy, ProvisionInstance, FindSpareSlug, AllSlugs, Shares, GoodLists, ProvisionSpare, Ascending,
         SpareSet, SpareTakesAt, Recorded, HasDeployment;
    SpareKeeps(j, c, i);
    SpareDone(j, c, i);
    var slug := FindSpareSlug(j, c, i).value;
    var d := ProvisionSpare(j, c, i, slug);
    SpareAdds(j, c.store, SpareAt(i), slug);
    CalmInstance(j, c.store, SpareAt(i), "", slug);
    assert d.status.spares[i].slug == slug && HasDeployment(j, d.store, slug);
    forall e | e != slug
      ensures e in Recorded(d.status, 0, p) <==> e in Recorded(c.status, 0, p)
      ensures HasDeployment(j, d.store, e) <==> HasDeployment(j, c.store, e)
    {
      OthersRecorded(c.status, d.status, j, i, p, slug, e);
      OtherDeployment(j, c.store, d.store, slug, e);
    }
    if !Unfilled(c.status, i) {
      assert slug in Recorded(c.status, 0, p) by { InRecorded(c.status, i, p); }
    } else if slug in Recorded(c.status, 0, p) {
      UnfilledNotRecorded(j, c.status, d.status, i, p, slug);
      assert false;
    }
  }

  lemma InRecorded(st: Status, i: nat, p: nat)
    requires !Unfilled(st, i) && i < p
    ensures st.spares[i].slug in Recorded(st, 0, p)
  {
  }

  lemma UnfilledNotRecorded(j: Job, a: Status, b: Status, i: nat, p: nat, slug: string)
    requires Unfilled(a, i) && i <= |a.spares| && b == SetSpare(j, a, i, slug, InstancePhase.Provisioned) && !Shares(b)
    ensures slug !in Recorded(a, 0, p)
  {
    hide Shares, InstanceURL;
    if slug in Recorded(a, 0, p) {
      var k :| 0 <= k < |a.spares| && k < p && a.spares[k].slug == slug && slug != "";
      assert b.spares[k].slug == slug && b.spares[i].slug == slug && k != i;
      SparesDiffer(b, i, k);
    }
  }

  /** From slot to slot only recorded slugs are added to what is found. */
  lemma SeenGrows(j: Job, c: Ctx, i: nat, p: nat)
    requires i < p && FilledTo(j, c, i) && Unfilled(c.status, i)
    ensures Seen(j, c.status, c.store, i) <= Seen(j, c.status, c.store, p)
    ensures |Seen(j, c.status, c.store, p) - Seen(j, c.status, c.store, i)| <= p - i - 1
    ensures |Seen(j, c.status, c.store, p)| <= |Seen(j, c.status, c.store, i)| + p - i - 1
  {
    hide SpareSet, HasDeployment;
    var found, more := Seen(j, c.status, c.store, i), Seen(j, c.status, c.store, p);
    var between := Recorded(c.status, i + 1, p);
    FewRecorded(c.status, i + 1, p);
    forall e | e in more ensures e in found || e in between {
    }
    SubsetCardinality(more - found, between);
    SubsetCardinality(more, found + between);
  }

  /** Filling a slot without sharing changes for no later slot whether it takes a recorded slug. */
  lemma LaterTakes(j: Job, c: Ctx, i: nat, p: nat)
    requires Ordinary(j) && InHand(j, c, |j.spec.students|, i) && FilledTo(j, c, i) && i < j.spec.spares && i < p
    requires !SpareTakesAt(j, c.status, c.store, i)
    ensures FindSpareSlug(j, c, i).Some?
    ensures var d := ProvisionSpare(j, c, i, FindSpareSlug(j, c, i).value);
            SpareTakesAt(j, c.status, c.store, p) <==> SpareTakesAt(j, d.status, d.store, p)
  {
    hide FreshLeft, InstanceURL, Tidy, ProvisionInstance, FindSpareSlug, AllSlugs, Shares, GoodLists, ProvisionSpare, Ascending,
         Seen, FilledTo, HasDeployment;
    SpareKeeps(j, c, i);
    SpareNext(j, c, i);
    SeenLater(j, c, i, p);
    var slug := FindSpareSlug(j, c, i).value;
    var d := ProvisionSpare(j, c, i, slug);
    var found, more, after := Seen(j, c.status, c.store, i), Seen(j, c.status, c.store, p), Seen(j, d.status, d.store, p);
    var l, r := Ascending(found), Ascending(more);
    assert i <= |c.status.spares| by { FilledInside(j, c, i); }
    SlugsAfterSpare(j, c.status, i, slug);
    SpareSlotSlug(c.status, i);
    if Unfilled(c.status, i) {
      SeenGrows(j, c, i, p);
      if i < |l| {
        SeenIsDeployed(j, c, i, slug);
        assert after == more;
        if p < |r| {
          NotAgain(found, more, i, p, slug);
          assert r[p] in Elements(r);
          SeenNotBlank(j, c, p, r[p]);
          FilledElements(AllSlugs(c.status), AllSlugs(d.status), |c.status.students| + i, slug, r[p]);
        }
      } else {
        assert |after| <= |more| + 1 by { SubsetCardinality(after, more + {slug}); }
      }
    } else {
      assert AllSlugs(d.status) == AllSlugs(c.status);
    }
  }

  lemma SeenNotBlank(j: Job, c: Ctx, p: nat, e: string)
    requires Tidy(j.x, j.ns, c.store) && e in Seen(j, c.status, c.store, p)
    ensures e != ""
  {
    hide Tidy, Made, SpareSet;
    if e in SpareSet(j, c.store) {
      LeftoverSpare(j, c.store, e);
    }
  }

  lemma FilledElements(a: seq<string>, b: seq<string>, n: nat, slug: string, e: string)
    requires n <= |a| && (n < |a| ==> a[n] in {"", slug}) && b == if n < |a| then a[n := slug] else a + [slug]
    requires e != "" && e != slug
    ensures e in a <==> e in b
  {
    if k :| 0 <= k < |a| && a[k] == e {
      assert b[k] == e;
    }
  }

  lemma SpareLeavesOthers(j: Job, c: Ctx, i: nat)
    requires Ordinary(j) && InHand(j, c, |j.spec.students|, i) && FilledTo(j, c, i) && i < j.spec.spares
    requires !SpareTakesAt(j, c.status, c.store, i)
    ensures FindSpareSlug(j, c, i).Some?
    ensures var d := ProvisionSpare(j, c, i, FindSpareSlug(j, c, i).value);
            SpareTakesFrom(j, c.status, c.store, i) <==> SpareTakesFrom(j, d.status, d.store, i + 1)
  {
    hide FreshLeft, InstanceURL, Tidy, ProvisionInstance, FindSpareSlug, Shares, GoodLists, ProvisionSpare, FilledTo,
         SpareTakesAt;
    SpareKeeps(j, c, i);
    var d := ProvisionSpare(j, c, i, FindSpareSlug(j, c, i).value);
    forall p | i < p < j.spec.spares
      ensures SpareTakesAt(j, c.status, c.store, p) <==> SpareTakesAt(j, d.status, d.store, p)
    {
      LaterTakes(j, c, i, p);
    }
  }

  /** The spare loop repeats a slug exactly when some slot takes a recorded one. */
  lemma {:induction false} SparesTake(j: Job, c: Ctx, i: nat, healthy: bool)
    requires Ordinary(j) && InHand(j, c, |j.spec.students|, i) && FilledTo(j, c, i) && i <= j.spec.spares
    ensures Shares(ProvisionSpares(j, c, i, healthy).c.status) <==> SpareTakesFrom(j, c.status, c.store, i)
    decreases j.spec.spares - i
  {
    hide FreshLeft, Shares, Tidy, ProvisionInstance, ProvisionSpare, FindSpareSlug, FilledTo, GoodLists, SpareTakesAt;
    if i < j.spec.spares {
      SpareKeeps(j, c, i);
      var slug := FindSpareSlug(j, c, i).value;
      var d := ProvisionSpare(j, c, i, slug);
      var ok := !ProvisionInstance(j, c.store, SpareAt(i), "", slug).err;
      if SpareTakesAt(j, c.status, c.store, i) {
        SpareTaken(j, c, i);
        ProvisionSparesAligned(j, d, i + 1, healthy && ok);
        SharedForGood(d.status, ProvisionSpares(j, d, i + 1, healthy && ok).c.status);
      } else {
        SpareDone(j, c, i);
        SpareLeavesOthers(j, c, i);
        SparesTake(j, d, i + 1, healthy && ok);
      }
    }
  }
}
