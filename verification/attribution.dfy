/** Which exams are coherent: in every run with fresh slugs each recorded slug's deployment is labelled for
    its entry, whatever fails; and one clean-up of deployments then leaves no other deployment. */
module Attribution {
  import opened Prelude
  import opened ExamApi
  import opened Timetable
  import opened Webhook
  import opened Policy
  import opened Objects
  import opened Store
  import opened Oracle
  import opened Pass
  import opened System
  import opened Lifecycle
  import opened Alignment
  import opened Identity
  import opened Footprint
  import opened Interference
  import opened Tidiness
  import opened Wakeup
  import opened Gate
  import opened Recovery
  import opened Sharing
  import opened Taking
  import opened Completion
  import opened Coherence

  ghost predicate Separate(st: Status) {
    && (forall a :: 0 <= a < |st.students| ==> st.students[a].slug != "")
    && (forall a, b :: 0 <= a < b < |st.students| ==> st.students[a].slug != st.students[b].slug)
    && (forall a, b :: 0 <= a < |st.students| && 0 <= b < |st.spares| ==> st.students[a].slug != st.spares[b].slug)
  }

  /** No student shares her slug, and the deployment of a recorded slug, if there is one, is labelled for
      its entry. Spares may share a slug. */
  ghost predicate Attributed(ns: string, st: Status, s: Cluster) {
    && Separate(st)
    && (forall a :: 0 <= a < |st.students| && DeploymentKey(ns, st.students[a].slug) in s ==>
          Hers(ns, st, s, DeploymentKey(ns, st.students[a].slug), a))
    && (forall b :: 0 <= b < |st.spares| && st.spares[b].slug != "" && DeploymentKey(ns, st.spares[b].slug) in s ==>
          SpareOf(ns, st, s, DeploymentKey(ns, st.spares[b].slug), b))
  }

  /** The slugs that can still be generated differ from each other, from all recorded and all deployed. */
  ghost predicate Unused(j: Job, st: Status, s: Cluster, a: nat, b: nat) {
    && (forall p, q :: j.env.slug(p) == j.env.slug(q) && j.env.slug(p).Some? ==> p == q)
    && forall who :: Later(who, a, b) && j.env.slug(who).Some? ==>
         j.env.slug(who).value !in AllSlugs(st) && DeploymentKey(j.ns, j.env.slug(who).value) !in s
  }

  // One instance.

  lemma {:induction false} CreateAllTouches(s: Cluster, todo: seq<Creation>, env: Env)
    ensures var t := CreateAll(s, todo, env).store;
            && (forall k :: k in s ==> k in t && t[k] == s[k])
            && forall k :: k in t && k !in s ==> exists i :: 0 <= i < |todo| && todo[i].key == k && todo[i].value == t[k]
    decreases |todo|
  {
    if todo != [] {
      var first := Create(s, todo[0].key, todo[0].value, env.fault(todo[0].site));
      var t := CreateAll(s, todo, env).store;
      if !first.err {
        CreateAllTouches(first.store, todo[1..], env);
      }
      forall k | k in t && k !in s ensures exists i :: 0 <= i < |todo| && todo[i].key == k && todo[i].value == t[k] {
        if k in first.store {
          assert todo[0].key == k && todo[0].value == t[k];
        } else {
          var i :| 0 <= i < |todo[1..]| && todo[1..][i].key == k && todo[1..][i].value == t[k];
          assert todo[i + 1].key == k && todo[i + 1].value == t[k];
        }
      }
    }
  }

  /** Whatever fails, an instance changes no deployment, and at most adds its own. */
  lemma InstanceAdds(j: Job, s: Cluster, who: Who, student: string, slug: string)
    ensures Adds(j.ns, s, ProvisionInstance(j, s, who, student, slug).store, student, slug)
  {
    hide CreateAll, Service, PolicyObject, Labels;
    var todo := InstanceObjects(j, who, student, slug);
    CreateAllTouches(s, todo, j.env);
    LabelsStudent(j.x, student, slug);
  }

  /** From `s` to `t` only the deployment of that slug may be new, labelled for that student, if any. */
  ghost predicate Adds(ns: string, s: Cluster, t: Cluster, student: string, slug: string) {
    && (forall k :: k in s ==> k in t && t[k] == s[k])
    && forall k: Key :: k in t && k !in s && k.kind == DeploymentKind ==>
         k == DeploymentKey(ns, slug)
         && Label(t, k, LabelStudent) == student && (HasLabel(t, k, LabelStudent) <==> student != "")
  }

  lemma StudentAdded(ns: string, st: Status, s: Cluster, st': Status, s': Cluster, i: nat, id: string, slug: string)
    requires Attributed(ns, st, s) && slug != "" && id != "" && Adds(ns, s, s', id, slug)
    requires i <= |st.students| && |st'.students| == (if i < |st.students| then |st.students| else i + 1) && st'.spares == st.spares
    requires forall a :: 0 <= a < |st.students| && a != i ==> st'.students[a] == st.students[a]
    requires st'.students[i].id == id && st'.students[i].slug == slug
    requires if i < |st.students| then st.students[i].slug == slug && st.students[i].id == id else slug !in AllSlugs(st)
    requires i == |st.students| && DeploymentKey(ns, slug) in s ==> Label(s, DeploymentKey(ns, slug), LabelStudent) == id
    ensures Attributed(ns, st', s')
  {
    hide AllSlugs, Label, HasLabel;
    forall e | e !in AllSlugs(st)
      ensures forall a :: 0 <= a < |st.students| ==> st.students[a].slug != e
      ensures forall b :: 0 <= b < |st.spares| ==> st.spares[b].slug != e
    {
      NotRecorded(st, e);
    }
    SameLabels(ns, s, s', id, slug);
    forall a | 0 <= a < |st'.students| && DeploymentKey(ns, st'.students[a].slug) in s'
      ensures Hers(ns, st', s', DeploymentKey(ns, st'.students[a].slug), a)
    {
      var k := DeploymentKey(ns, st'.students[a].slug);
      if k in s && a < |st.students| {
        assert Hers(ns, st, s, DeploymentKey(ns, st.students[a].slug), a);
      }
    }
    forall b | 0 <= b < |st'.spares| && st'.spares[b].slug != "" && DeploymentKey(ns, st'.spares[b].slug) in s'
      ensures SpareOf(ns, st', s', DeploymentKey(ns, st'.spares[b].slug), b)
    {
      var k := DeploymentKey(ns, st'.spares[b].slug);
      assert k in s;
      assert SpareOf(ns, st, s, k, b);
    }
  }

  lemma NotRecorded(st: Status, e: string)
    requires e !in AllSlugs(st)
    ensures forall a :: 0 <= a < |st.students| ==> st.students[a].slug != e
    ensures forall b :: 0 <= b < |st.spares| ==> st.spares[b].slug != e
  {
    forall b | 0 <= b < |st.spares| ensures st.spares[b].slug != e {
      SpareAmong(st, b);
    }
    forall a | 0 <= a < |st.students| ensures st.students[a].slug != e {
      assert AllSlugs(st)[a] == st.students[a].slug;
    }
  }

  lemma SameLabels(ns: string, s: Cluster, t: Cluster, student: string, slug: string)
    requires Adds(ns, s, t, student, slug)
    ensures forall k, l :: k in s ==> Label(t, k, l) == Label(s, k, l) && (HasLabel(t, k, l) <==> HasLabel(s, k, l))
  {
  }

  lemma SpareAdded(ns: string, st: Status, s: Cluster, st': Status, s': Cluster, slug: string)
    requires Attributed(ns, st, s) && Adds(ns, s, s', "", slug)
    requires forall a :: 0 <= a < |st.students| ==> st.students[a].slug != slug
    requires DeploymentKey(ns, slug) in s ==> !HasLabel(s, DeploymentKey(ns, slug), LabelStudent)
    requires st'.students == st.students
    requires forall b :: 0 <= b < |st'.spares| ==>
               st'.spares[b].slug in {"", slug} || (b < |st.spares| && st'.spares[b].slug == st.spares[b].slug)
    ensures Attributed(ns, st', s')
  {
    hide Label, HasLabel;
    SameLabels(ns, s, s', "", slug);
    forall a | 0 <= a < |st'.students| && DeploymentKey(ns, st'.students[a].slug) in s'
      ensures Hers(ns, st', s', DeploymentKey(ns, st'.students[a].slug), a)
    {
      assert DeploymentKey(ns, st'.students[a].slug) in s;
      assert Hers(ns, st, s, DeploymentKey(ns, st.students[a].slug), a);
    }
    forall b | 0 <= b < |st'.spares| && st'.spares[b].slug != "" && DeploymentKey(ns, st'.spares[b].slug) in s'
      ensures SpareOf(ns, st', s', DeploymentKey(ns, st'.spares[b].slug), b)
    {
      var k := DeploymentKey(ns, st'.spares[b].slug);
      if st'.spares[b].slug != slug {
        assert k in s;
        assert SpareOf(ns, st, s, k, b);
      }
    }
  }

  // The loops.

  /** How far the loops are. */
  ghost predicate Going(j: Job, c: Ctx, a: nat, b: nat) {
    && j.env.Valid() && DistinctIDs(j.spec) && GoodLists(j.platform.domain, j.spec, c.status) && Tidy(j.x, j.ns, c.store)
    && Attributed(j.ns, c.status, c.store) && Unused(j, c.status, c.store, a, b)
  }

  /** A generated slug stays unused while only the slug `slug`, or one that is there already, is added. */
  lemma UnusedAfter(j: Job, c: Ctx, d: Ctx, a: nat, b: nat, a': nat, b': nat, student: string, slug: string)
    requires Unused(j, c.status, c.store, a, b) && a <= a' && b <= b' && Adds(j.ns, c.store, d.store, student, slug)
    requires forall e :: e in AllSlugs(d.status) ==> e in {"", slug} || e in AllSlugs(c.status)
    requires j.env.Valid() && forall who :: Later(who, a', b') ==> j.env.slug(who) != Some(slug)
    ensures Unused(j, d.status, d.store, a', b')
  {
    hide AllSlugs, Label, HasLabel;
    forall who | Later(who, a', b') && j.env.slug(who).Some?
      ensures j.env.slug(who).value !in AllSlugs(d.status) && DeploymentKey(j.ns, j.env.slug(who).value) !in d.store
    {
      assert Later(who, a, b);
    }
  }

  lemma InUseNotLater(j: Job, c: Ctx, who: Who, a: nat, b: nat, slug: string)
    requires Unused(j, c.status, c.store, a, b) && Later(who, a, b)
    requires slug in AllSlugs(c.status) || HasDeployment(j, c.store, slug)
    ensures j.env.slug(who) != Some(slug)
  {
  }

  lemma UnusedHere(j: Job, c: Ctx, who: Who, other: Who, a: nat, b: nat, slug: string)
    requires Unused(j, c.status, c.store, a, b) && Later(who, a, b) && j.env.slug(who) == Some(slug)
    ensures slug !in AllSlugs(c.status) && !HasDeployment(j, c.store, slug)
    ensures other != who ==> j.env.slug(other) != Some(slug)
  {
  }

  /** A leftover of the student is no recorded entry's. */
  lemma LeftoverUnrecorded(j: Job, c: Ctx, i: nat)
    requires Going(j, c, i, 0) && i < |j.spec.students| && i == |c.status.students| && LeftoverStudentSlug(j, c.store, i) != ""
    ensures LeftoverStudentSlug(j, c.store, i) !in AllSlugs(c.status)
  {
    hide LeftoverStudentSlug, AllSlugs, Tidy, InstanceURL, GoodSpare, Unused;
    var slug := LeftoverStudentSlug(j, c.store, i);
    LeftoverIsHers(j, c.store, i);
    if slug in AllSlugs(c.status) {
      InAll(c.status, slug);
      assert false;
    }
  }

  lemma StudentAttributed(j: Job, c: Ctx, i: nat)
    requires Going(j, c, i, 0) && i < |j.spec.students| && i <= |c.status.students| && FindStudentSlug(j, c, i).Some?
    ensures Going(j, ProvisionStudent(j, c, i, FindStudentSlug(j, c, i).value), i + 1, 0)
    ensures i < |ProvisionStudent(j, c, i, FindStudentSlug(j, c, i).value).status.students|
  {
    hide LeftoverStudentSlug, AllSlugs, Tidy, InstanceURL, GoodStudent, GoodSpare, Unused, Adds, ProvisionInstance, Changes,
         FindStudentSlug, Attributed;
    var slug, id := FindStudentSlug(j, c, i).value, j.spec.students[i].id;
    var d := ProvisionStudent(j, c, i, slug);
    StudentSlugNotEmpty(j, c, i);
    ProvisionStudentAligned(j, c, i);
    StudentNext(j, c, i);
    InstanceChanges(j, c.store, StudentAt(i), id, slug);
    ChangesTidy(j.x, j.ns, j.spec.template, false, c.store, d.store);
    InstanceAdds(j, c.store, StudentAt(i), id, slug);
    SlugsAfterStudent(j, c.status, i, slug, if ProvisionInstance(j, c.store, StudentAt(i), id, slug).err then Failed else InstancePhase.Provisioned);
    if i < |c.status.students| {
      RecordedStudent(j, c, i);
    } else if LeftoverStudentSlug(j, c.store, i) != "" {
      LeftoverUnrecorded(j, c, i);
      LeftoverIsHers(j, c.store, i);
    } else {
      UnusedHere(j, c, StudentAt(i), StudentAt(i), i, 0, slug);
    }
    forall who | Later(who, i + 1, 0) ensures j.env.slug(who) != Some(slug) {
      if i < |c.status.students| || LeftoverStudentSlug(j, c.store, i) != "" {
        InUseNotLater(j, c, who, i, 0, slug);
      } else {
        UnusedHere(j, c, StudentAt(i), who, i, 0, slug);
      }
    }
    StudentAdded(j.ns, c.status, c.store, d.status, d.store, i, id, slug);
    SlugsFrom(j, c.status, d.status, i, slug);
    UnusedAfter(j, c, d, i, 0, i + 1, 0, id, slug);
  }

  lemma RecordedStudent(j: Job, c: Ctx, i: nat)
    requires GoodLists(j.platform.domain, j.spec, c.status) && i < |c.status.students|
    ensures i < |j.spec.students| && c.status.students[i].id == j.spec.students[i].id
    ensures c.status.students[i].slug in AllSlugs(c.status)
  {
    assert GoodStudent(j.platform.domain, j.spec, i, c.status.students[i]);
    assert AllSlugs(c.status)[i] == c.status.students[i].slug;
  }

  lemma {:induction false} StudentsAttributed(j: Job, c: Ctx, i: nat, healthy: bool)
    requires Going(j, c, i, 0) && i <= |j.spec.students| && i <= |c.status.students|
    ensures var r := ProvisionStudents(j, c, i, healthy);
            if r.err then Attributed(j.ns, r.c.status, r.c.store) else Going(j, r.c, |j.spec.students|, 0)
    decreases |j.spec.students| - i
  {
    hide Going, FindStudentSlug, ProvisionInstance, ProvisionStudent;
    if i < |j.spec.students| {
      if FindStudentSlug(j, c, i).Some? {
        StudentAttributed(j, c, i);
        var slug := FindStudentSlug(j, c, i).value;
        var ok := !ProvisionInstance(j, c.store, StudentAt(i), j.spec.students[i].id, slug).err;
        StudentsAttributed(j, ProvisionStudent(j, c, i, slug), i + 1, healthy && ok);
      } else {
        assert Attributed(j.ns, c.status, c.store) by { GoingIsAttributed(j, c, i, 0); }
      }
    }
  }

  lemma GoingIsAttributed(j: Job, c: Ctx, a: nat, b: nat)
    requires Going(j, c, a, b)
    ensures Attributed(j.ns, c.status, c.store)
  {
  }

  lemma {:induction false} SpareSlugsOfSpares(s: Cluster, items: seq<Key>)
    ensures forall e :: e in SpareSlugs(s, items) ==> exists k :: k in items && IsSpare(s, k) && Label(s, k, LabelSlug) == e
  {
    hide IsSpare;
    if items != [] {
      SpareSlugsOfSpares(s, items[1..]);
    }
  }

  /** Whatever fails, a slot keeps its slug, takes that of a spare deployment, or a generated one. */
  lemma SpareFound(j: Job, c: Ctx, i: nat)
    requires j.env.Valid() && Tidy(j.x, j.ns, c.store) && FindSpareSlug(j, c, i).Some?
    ensures var slug := FindSpareSlug(j, c, i).value;
            || (i < |c.status.spares| && c.status.spares[i].slug == slug)
            || (HasDeployment(j, c.store, slug) && !HasLabel(c.store, DeploymentKey(j.ns, slug), LabelStudent))
            || j.env.slug(SpareAt(i)) == Some(slug)
  {
    hide SortStrings, SpareSlugs, Tidy, Owned;
    var owned := Owned(j, c.store, DeploymentKind);
    var items := j.env.order(Lookup(SpareAt(i)), owned);
    assert Enumerates(items, owned);
    var found := SpareSlugs(c.store, items);
    SpareSlugsOfSpares(c.store, items);
    var leftovers := SortStrings(found);
    if i < |leftovers| {
      var slug := leftovers[i];
      assert slug in multiset(leftovers);
      assert slug in found;
      var k :| k in items && IsSpare(c.store, k) && Label(c.store, k, LabelSlug) == slug;
      OwnedDeployment(j, c.store, k);
    }
  }

  ghost predicate SparesGoing(j: Job, c: Ctx, i: nat) {
    && j.env.Valid() && Tidy(j.x, j.ns, c.store) && Attributed(j.ns, c.status, c.store)
    && Unused(j, c.status, c.store, |j.spec.students|, i)
  }

  /** The slug found for a slot is no student's, and its deployment is labelled with none. */
  lemma FoundForSpare(j: Job, c: Ctx, i: nat)
    requires SparesGoing(j, c, i) && FindSpareSlug(j, c, i).Some?
    ensures var slug := FindSpareSlug(j, c, i).value;
            && (forall a :: 0 <= a < |c.status.students| ==> c.status.students[a].slug != slug)
            && (HasDeployment(j, c.store, slug) ==> !HasLabel(c.store, DeploymentKey(j.ns, slug), LabelStudent))
            && forall who :: Later(who, |j.spec.students|, i + 1) ==> j.env.slug(who) != Some(slug)
  {
    hide FindSpareSlug, Tidy, AllSlugs, Unused;
    var slug, n := FindSpareSlug(j, c, i).value, |j.spec.students|;
    SpareFound(j, c, i);
    SpareSlugNotEmpty(j, c, i);
    forall who | Later(who, n, i + 1) ensures j.env.slug(who) != Some(slug) {
      if i < |c.status.spares| && c.status.spares[i].slug == slug {
        SpareAmong(c.status, i);
        InUseNotLater(j, c, who, n, i, slug);
      } else if HasDeployment(j, c.store, slug) {
        InUseNotLater(j, c, who, n, i, slug);
      } else {
        UnusedHere(j, c, SpareAt(i), who, n, i, slug);
      }
    }
    if i < |c.status.spares| && c.status.spares[i].slug == slug {
      assert HasDeployment(j, c.store, slug) ==> SpareOf(j.ns, c.status, c.store, DeploymentKey(j.ns, slug), i);
    } else if HasDeployment(j, c.store, slug) && !HasLabel(c.store, DeploymentKey(j.ns, slug), LabelStudent) {
      forall a | 0 <= a < |c.status.students| ensures c.status.students[a].slug != slug {
        if c.status.students[a].slug == slug {
          assert false;
        }
      }
    } else {
      UnusedHere(j, c, SpareAt(i), SpareAt(i), n, i, slug);
      NotRecorded(c.status, slug);
    }
  }

  lemma SpareAttributed(j: Job, c: Ctx, i: nat)
    requires SparesGoing(j, c, i) && FindSpareSlug(j, c, i).Some?
    ensures SparesGoing(j, ProvisionSpare(j, c, i, FindSpareSlug(j, c, i).value), i + 1)
  {
    hide FindSpareSlug, Tidy, AllSlugs, Unused, Adds, Attributed, ProvisionInstance, Changes, InstanceURL;
    var slug, n := FindSpareSlug(j, c, i).value, |j.spec.students|;
    var d := ProvisionSpare(j, c, i, slug);
    FoundForSpare(j, c, i);
    SpareSlugNotEmpty(j, c, i);
    InstanceChanges(j, c.store, SpareAt(i), "", slug);
    ChangesTidy(j.x, j.ns, j.spec.template, false, c.store, d.store);
    InstanceAdds(j, c.store, SpareAt(i), "", slug);
    SpareAdded(j.ns, c.status, c.store, d.status, d.store, slug);
    forall e | e in AllSlugs(d.status) ensures e in {"", slug} || e in AllSlugs(c.status) {
      InAll(d.status, e);
      if b :| 0 <= b < |d.status.spares| && d.status.spares[b].slug == e {
        if b < |c.status.spares| { SpareAmong(c.status, b); }
      } else {
        var a :| 0 <= a < |d.status.students| && d.status.students[a].slug == e;
        if e !in AllSlugs(c.status) { NotRecorded(c.status, e); }
      }
    }
    UnusedAfter(j, c, d, n, i, n, i + 1, "", slug);
  }

  lemma {:induction false} SparesAttributed(j: Job, c: Ctx, i: nat, healthy: bool)
    requires SparesGoing(j, c, i)
    ensures Attributed(j.ns, ProvisionSpares(j, c, i, healthy).c.status, ProvisionSpares(j, c, i, healthy).c.store)
    decreases j.spec.spares - i
  {
    hide FindSpareSlug, ProvisionInstance, ProvisionSpare, Tidy, Unused, Attributed;
    if i < j.spec.spares && FindSpareSlug(j, c, i).Some? {
      SpareAttributed(j, c, i);
      var slug := FindSpareSlug(j, c, i).value;
      var ok := !ProvisionInstance(j, c.store, SpareAt(i), "", slug).err;
      SparesAttributed(j, ProvisionSpare(j, c, i, slug), i + 1, healthy && ok);
    }
  }

  // The whole pass.

  lemma Fewer(ns: string, st: Status, s: Cluster, t: Cluster)
    requires Attributed(ns, st, s) && Shrinks(s, t)
    ensures Attributed(ns, st, t)
  {
    hide Separate;
    forall a | 0 <= a < |st.students| && DeploymentKey(ns, st.students[a].slug) in t
      ensures Hers(ns, st, t, DeploymentKey(ns, st.students[a].slug), a)
    {
      assert Hers(ns, st, s, DeploymentKey(ns, st.students[a].slug), a);
    }
    forall b | 0 <= b < |st.spares| && st.spares[b].slug != "" && DeploymentKey(ns, st.spares[b].slug) in t
      ensures SpareOf(ns, st, t, DeploymentKey(ns, st.spares[b].slug), b)
    {
      assert SpareOf(ns, st, s, DeploymentKey(ns, st.spares[b].slug), b);
    }
  }

  /** The status recorded before is attributed where a later one is. */
  lemma Earlier(ns: string, a: Status, b: Status, s: Cluster)
    requires Attributed(ns, b, s) && Frozen(a, b)
    ensures Attributed(ns, a, s)
  {
    forall i | 0 <= i < |a.students|
      ensures a.students[i].slug != ""
      ensures DeploymentKey(ns, a.students[i].slug) in s ==> Hers(ns, a, s, DeploymentKey(ns, a.students[i].slug), i)
    {
      assert SameStudent(a.students[i], b.students[i]);
      assert DeploymentKey(ns, b.students[i].slug) in s ==> Hers(ns, b, s, DeploymentKey(ns, b.students[i].slug), i);
    }
    forall i | 0 <= i < |a.spares| && a.spares[i].slug != ""
      ensures DeploymentKey(ns, a.spares[i].slug) in s ==> SpareOf(ns, a, s, DeploymentKey(ns, a.spares[i].slug), i)
    {
      assert SameSpare(a.spares[i], b.spares[i]);
      assert DeploymentKey(ns, b.spares[i].slug) in s ==> SpareOf(ns, b, s, DeploymentKey(ns, b.spares[i].slug), i);
    }
    forall i, k | 0 <= i < |a.students| && 0 <= k < |a.spares| ensures a.students[i].slug != a.spares[k].slug {
      assert SameStudent(a.students[i], b.students[i]) && SameSpare(a.spares[k], b.spares[k]);
    }
  }

  lemma SameListsAttributed(ns: string, a: Status, b: Status, s: Cluster)
    requires Attributed(ns, a, s) && a.students == b.students && a.spares == b.spares
    ensures Attributed(ns, b, s)
  {
    Earlier(ns, b, a, s);
  }

  lemma NamespaceAttributed(j: Job, st: Status, s: Cluster, t: Cluster)
    requires j.ns != "" && (t == s || t == s[NamespaceKey(j.ns) := NamespaceObject(j.x)])
    requires Attributed(j.ns, st, s)
    ensures Attributed(j.ns, st, t)
  {
    hide NamespaceObject;
    forall a | 0 <= a < |st.students| && DeploymentKey(j.ns, st.students[a].slug) in t
      ensures Hers(j.ns, st, t, DeploymentKey(j.ns, st.students[a].slug), a)
    {
      assert Hers(j.ns, st, s, DeploymentKey(j.ns, st.students[a].slug), a);
    }
    forall b | 0 <= b < |st.spares| && st.spares[b].slug != "" && DeploymentKey(j.ns, st.spares[b].slug) in t
      ensures SpareOf(j.ns, st, t, DeploymentKey(j.ns, st.spares[b].slug), b)
    {
      assert SpareOf(j.ns, st, s, DeploymentKey(j.ns, st.spares[b].slug), b);
    }
  }

  lemma SettleAttributed(j: Job, c: Ctx, healthy: bool)
    requires j.env.Valid() && Attributed(j.ns, c.status, c.store)
    ensures Attributed(j.ns, Settle(j, c, healthy).c.status, Settle(j, c, healthy).c.store)
  {
    hide Cleanup, AllInstancesHealthy, ValidSlugs, Attributed, SpareURLsOf, Shrinks;
    var marked := if healthy then c else c.(status := AddCondition(c.status, ProvisioningDegraded));
    var t := Cleanup(j, marked.store, ValidSlugs(marked.status)).store;
    CleanupShrinks(j, marked.store, ValidSlugs(marked.status));
    Fewer(j.ns, c.status, marked.store, t);
    SameListsAttributed(j.ns, c.status, Settle(j, c, healthy).c.status, t);
  }

  lemma ProvisioningAttributed(j: Job, c: Ctx)
    requires j.ns != "" && Going(j, c, 0, 0)
    ensures Attributed(j.ns, ReconcileProvisioning(j, c).c.status, ReconcileProvisioning(j, c).c.store)
  {
    hide ProvisionStudents, ProvisionSpares, Settle, NamespaceObject, Attributed, Made, AllSlugs, GoodLists;
    var made := Create(c.store, NamespaceKey(j.ns), NamespaceObject(j.x), j.env.fault(NamespaceCreate));
    var c0 := c.(store := made.store);
    NamespaceAttributed(j, c.status, c.store, c0.store);
    if !made.err && !SecretFails(j) {
      assert Going(j, c0, 0, 0) by { NamespaceTidy(j, c.store, c0.store); }
      StudentsAttributed(j, c0, 0, true);
      var students := ProvisionStudents(j, c0, 0, true);
      if !students.err {
        SparesAttributed(j, students.c, 0, students.healthy);
        var spares := ProvisionSpares(j, students.c, 0, students.healthy);
        SettleAttributed(j, spares.c, spares.healthy);
      }
    }
  }

  lemma NamespaceTidy(j: Job, s: Cluster, t: Cluster)
    requires j.ns != "" && Tidy(j.x, j.ns, s) && (t == s || t == s[NamespaceKey(j.ns) := NamespaceObject(j.x)])
    ensures Tidy(j.x, j.ns, t)
  {
    hide Made, NamespaceObject;
  }

  // Runs.

  /** Before the gate opens, what is recorded for students with distinct ids is attributed. */
  ghost predicate AttributedEarly(m: Machine, s: State) {
    Rank(s.c.status.phase) < 2 && DistinctIDs(s.spec) ==> Attributed(m.ns, s.c.status, s.c.store)
  }

  /** Every pass of the run can generate only unused slugs. */
  ghost predicate AlwaysUnused(m: Machine, s: State, steps: seq<Step>)
    decreases |steps|
  {
    steps == []
    || ((steps[0].Reconciled? ==> Unused(JobOf(m, s, steps[0].env), s.c.status, s.c.store, 0, 0))
        && AlwaysUnused(m, Apply(m, s, steps[0]), steps[1..]))
  }

  lemma EarlyPassAttributed(m: Machine, s: State, env: Env)
    requires m.ns != "" && env.Valid() && LinedUp(m, s) && Tidy(m.x, m.ns, s.c.store) && DistinctIDs(s.spec)
    requires Rank(s.c.status.phase) < 2 && Attributed(m.ns, s.c.status, s.c.store)
    requires Unused(JobOf(m, s, env), s.c.status, s.c.store, 0, 0)
    ensures var d := Reconcile(JobOf(m, s, env), s.c).c; Attributed(m.ns, d.status, d.store)
  {
    hide ReconcileProvisioning, Summarize, ComputeSchedule, Attributed, AllSlugs, Tidy;
    var j := JobOf(m, s, env);
    var b := Begin(j, s.c);
    BeginPlaces(j, s.c);
    SameListsAttributed(m.ns, s.c.status, b.status, s.c.store);
    if b.status.phase == Phase.Provisioning {
      assert AllSlugs(b.status) == AllSlugs(s.c.status) by { SameListsComplete(j, s.c, s.c.(status := b.status)); }
      ProvisioningAttributed(j, b);
    }
    var o := Dispatch(j, b).c;
    SameListsAttributed(m.ns, o.status, Finish(j, o).status, o.store);
  }

  lemma StepAttributed(m: Machine, s: State, step: Step)
    requires m.ns != "" && LinedUp(m, s) && Tidy(m.x, m.ns, s.c.store) && AttributedEarly(m, s) && Enabled(m, s, step)
    requires step.Reconciled? ==> Unused(JobOf(m, s, step.env), s.c.status, s.c.store, 0, 0)
    ensures AttributedEarly(m, Apply(m, s, step))
  {
    hide Reconcile, Attributed, Tidy, ValidateUpdate, GoodLists, Unused;
    var t := Apply(m, s, step);
    StepPhase(m, s, step);
    if Rank(t.c.status.phase) < 2 && DistinctIDs(t.spec) {
      match step
      case Tick(_) =>
      case Edit(spec) =>
        if Rank(s.c.status.phase) == 0 {
          NothingRecorded(m.ns, s.c.status, s.c.store);
        } else if t.spec != s.spec {
          SameIDs(s.spec, spec);
        }
      case Readiness(key, ready) => ReadinessAttributed(m.ns, s.c.status, s.c.store, key, ready);
      case Drift(key) => Fewer(m.ns, s.c.status, s.c.store, t.c.store);
      case Elsewhere(store, _) => SameDeployments(m.ns, s.c.status, s.c.store, store);
      case Reconciled(env, saved) =>
        EarlyPassAttributed(m, s, env);
        StepLinedUp(m, s, Reconciled(env, true));
        var d := Reconcile(JobOf(m, s, env), s.c).c;
        Earlier(m.ns, s.c.status, d.status, d.store);
    }
  }

  lemma NothingRecorded(ns: string, st: Status, s: Cluster)
    requires st.students == [] && st.spares == []
    ensures Attributed(ns, st, s)
  {
  }

  lemma SameIDs(before: Spec, after: Spec)
    requires SameIdentity(before, after) && DistinctIDs(after)
    ensures DistinctIDs(before)
  {
  }

  lemma SameDeployments(ns: string, st: Status, s: Cluster, t: Cluster)
    requires Attributed(ns, st, s)
    requires forall k: Key :: k in t && k.namespace == ns ==> k in s && t[k].labels == s[k].labels
    ensures Attributed(ns, st, t)
  {
    hide Separate;
    forall a | 0 <= a < |st.students| && DeploymentKey(ns, st.students[a].slug) in t
      ensures Hers(ns, st, t, DeploymentKey(ns, st.students[a].slug), a)
    {
      assert Hers(ns, st, s, DeploymentKey(ns, st.students[a].slug), a);
    }
    forall b | 0 <= b < |st.spares| && st.spares[b].slug != "" && DeploymentKey(ns, st.spares[b].slug) in t
      ensures SpareOf(ns, st, t, DeploymentKey(ns, st.spares[b].slug), b)
    {
      assert SpareOf(ns, st, s, DeploymentKey(ns, st.spares[b].slug), b);
    }
  }

  lemma ReadinessAttributed(ns: string, st: Status, s: Cluster, key: Key, n: nat)
    requires Attributed(ns, st, s)
    ensures Attributed(ns, st, SetReady(s, key, n))
  {
    hide Attributed;
    SameDeployments(ns, st, s, SetReady(s, key, n));
  }

  /** In every run with unused slugs, whatever fails, is lost, drifts or is edited, the deployment of a
      recorded slug is labelled for its entry, and no student shares a slug, until the gate opens. */
  lemma {:induction false} RunAttributed(m: Machine, s: State, steps: seq<Step>)
    requires m.ns != "" && LinedUp(m, s) && Tidy(m.x, m.ns, s.c.store) && AttributedEarly(m, s)
    requires Legal(m, s, steps) && AlwaysUnused(m, s, steps)
    ensures AttributedEarly(m, Run(m, s, steps))
    decreases |steps|
  {
    hide Apply, AttributedEarly, LinedUp, Tidy, Unused;
    if steps != [] {
      StepAttributed(m, s, steps[0]);
      StepLinedUp(m, s, steps[0]);
      StepTidy(m, s, steps[0]);
      RunAttributed(m, Apply(m, s, steps[0]), steps[1..]);
    }
  }

  // Coherence.

  /** What is attributed, and holds no orphan, is coherent. */
  lemma NoOrphanCoherent(j: Job, st: Status, s: Cluster)
    requires Tidy(j.x, j.ns, s) && Attributed(j.ns, st, s) && NoOrphans(j, st, s)
    ensures Coherent(j.ns, st, s)
  {
    hide Made, Tidy, Owned, Hers, SpareOf, ValidSlugs, AllSlugs;
    forall k: Key | k in s && k.namespace == j.ns && k.kind == DeploymentKind
      ensures (exists a :: Hers(j.ns, st, s, k, a)) || exists b :: SpareOf(j.ns, st, s, k, b)
    {
      DeploymentOwned(j, s, k);
      OwnedDeployment(j, s, k);
      var slug := Label(s, k, LabelSlug);
      assert slug in ValidSlugs(st);
      ValidAmongAll(st);
      InAll(st, slug);
    }
  }

  lemma DeploymentOwned(j: Job, s: Cluster, k: Key)
    requires Tidy(j.x, j.ns, s) && k in s && k.namespace == j.ns && k.kind == DeploymentKind
    ensures k in Owned(j, s, DeploymentKind)
  {
    hide Made, OwnerLabels, Selects;
    assert Made(j.x, k, s[k]);
    OwnedAndLabelled(j.x, k, s[k]);
  }

  /** A provisioning pass that gets to the clean-up and whose clean-up of deployments succeeds leaves no orphan. */
  lemma ProvisioningCleans(j: Job, c: Ctx)
    requires j.env.Valid() && DeploymentCleanupSucceeds(j.env)
    ensures var o := ReconcileProvisioning(j, c); !o.err ==> NoOrphans(j, o.c.status, o.c.store)
  {
    hide ProvisionStudents, ProvisionSpares, Cleanup, AllInstancesHealthy, ValidSlugs, Owned, SpareURLsOf, NamespaceObject,
         CleanupKind, Orphan;
    var o := ReconcileProvisioning(j, c);
    if !o.err {
      var c0 := c.(store := Create(c.store, NamespaceKey(j.ns), NamespaceObject(j.x), j.env.fault(NamespaceCreate)).store);
      var students := ProvisionStudents(j, c0, 0, true);
      var spares := ProvisionSpares(j, students.c, 0, students.healthy);
      var d := spares.c;
      DeploymentCleanupDone(j, d.store, ValidSlugs(d.status));
      CleanedOfOrphans(j, d.store, d.status);
      var marked := if spares.healthy then d.status else AddCondition(d.status, ProvisioningDegraded);
      SameValid(d.status, marked);
      SameValid(d.status, o.c.status);
    }
  }

  lemma SameValid(a: Status, b: Status)
    requires a.students == b.students && a.spares == b.spares
    ensures ValidSlugs(a) == ValidSlugs(b)
  {
  }

  lemma CleanedPass(j: Job, c: Ctx)
    requires j.env.Valid() && DeploymentCleanupSucceeds(j.env)
    ensures var o := Reconcile(j, c);
            o.c.status.phase == Phase.Provisioning && !o.err ==> NoOrphans(j, o.c.status, o.c.store)
  {
    hide ReconcileProvisioning, Summarize, ComputeSchedule, ValidSlugs, Owned, Orphan;
    var b := Begin(j, c);
    BeginPlaces(j, c);
    var o := Reconcile(j, c);
    if o.c.status.phase == Phase.Provisioning && !o.err {
      PassPhase(j, c);
      ProvisioningCleans(j, b);
      SameValid(ReconcileProvisioning(j, b).c.status, o.c.status);
    }
  }

  /** So a saved pass without error whose clean-up of deployments succeeds leaves a coherent exam, if it
      leaves it provisioning. */
  lemma SavedPassCoherent(m: Machine, s: State, steps: seq<Step>, env: Env)
    requires m.ns != "" && Initial(m, s) && Legal(m, s, steps) && AlwaysUnused(m, s, steps)
    requires var t := Run(m, s, steps);
             env.Valid() && Unused(JobOf(m, t, env), t.c.status, t.c.store, 0, 0) && DeploymentCleanupSucceeds(env)
             && !Reconcile(JobOf(m, t, env), t.c).err
    ensures var u := AfterPass(m, Run(m, s, steps), env, true);
            u.c.status.phase == Phase.Provisioning && DistinctIDs(u.spec) ==>
              HalfRecorded(m, u) && Coherent(m.ns, u.c.status, u.c.store)
  {
    hide Reconcile, Run, Legal, LinedUp, Tidy, LockTime, Unused, Attributed, NoOrphans, DeploymentCleanupSucceeds, Coherent;
    var t := Run(m, s, steps);
    var u, step := AfterPass(m, t, env, true), Reconciled(env, true);
    if u.c.status.phase == Phase.Provisioning && DistinctIDs(u.spec) {
      InitialLinedUp(m, s);
      InitialAttributed(m, s);
      RunLinedUp(m, s, steps);
      RunOnTime(m, s, steps);
      RunTidy(m, s, steps);
      RunAttributed(m, s, steps);
      StepLinedUp(m, t, step);
      StepOnTime(m, t, step);
      StepTidy(m, t, step);
      StepAttributed(m, t, step);
      CleanedPass(JobOf(m, t, env), t.c);
      NoOrphanCoherent(JobOf(m, t, env), u.c.status, u.c.store);
    }
  }

  lemma InitialAttributed(m: Machine, s: State)
    requires Initial(m, s)
    ensures AttributedEarly(m, s) && Tidy(m.x, m.ns, s.c.store)
  {
    NothingRecorded(m.ns, s.c.status, s.c.store);
  }

  /** Where slugs are attributed, no leftover of a student without entry is recorded for another. */
  lemma NoStudentTakesAttributed(j: Job, st: Status, s: Cluster, k: nat)
    requires j.env.Valid() && DistinctIDs(j.spec) && GoodLists(j.platform.domain, j.spec, st) && Tidy(j.x, j.ns, s)
    requires Attributed(j.ns, st, s) && k < |j.spec.students|
    ensures !StudentTakesAt(j, st, s, k)
  {
    hide LeftoverStudentSlug, AllSlugs, Tidy, InstanceURL, GoodSpare;
    var slug := LeftoverStudentSlug(j, s, k);
    if |st.students| <= k && slug != "" && slug in AllSlugs(st) {
      LeftoverIsHers(j, s, k);
      InAll(st, slug);
      assert false;
    }
  }

  /** After any run from admission with unused slugs, a clean pass with fresh slugs ends with a slug recorded
      twice if and only if one was recorded twice before, or an unfilled spare slot finds a recorded one at
      its index. */
  lemma ReachableSharesIff(m: Machine, s: State, steps: seq<Step>, env: Env)
    requires m.ns != "" && Initial(m, s) && Legal(m, s, steps) && AlwaysUnused(m, s, steps) && env.Valid() && env.Calm()
    requires var t := Run(m, s, steps);
             t.c.status.phase == Phase.Provisioning && DistinctIDs(t.spec)
             && FreshLeft(JobOf(m, t, env), t.c.status, t.c.store, 0, 0)
    ensures var t := Run(m, s, steps);
            Shares(AfterPass(m, t, env, true).c.status) <==>
              Shares(t.c.status) || SpareTakesFrom(JobOf(m, t, env), t.c.status, t.c.store, 0)
  {
    hide AfterPass, Run, Legal, LinedUp, Tidy, LockTime, Attributed, GoodLists, FreshLeft, Shares, StudentTakesAt, SpareTakesFrom;
    var t := Run(m, s, steps);
    var j := JobOf(m, t, env);
    ReachableHalfRecorded(m, s, steps);
    CleanPassSharesIff(m, t, env);
    InitialLinedUp(m, s);
    InitialAttributed(m, s);
    RunAttributed(m, s, steps);
    assert GoodLists(j.platform.domain, j.spec, t.c.status) by { InLine(m, t); }
    if k :| 0 <= k < |t.spec.students| && StudentTakesAt(j, t.c.status, t.c.store, k) {
      NoStudentTakesAttributed(j, t.c.status, t.c.store, k);
    }
  }

  lemma InLine(m: Machine, s: State)
    requires LinedUp(m, s)
    ensures GoodLists(m.platform.domain, s.spec, s.c.status)
  {
  }

  /** In a coherent exam a clean pass with fresh slugs ends with a slug recorded twice if and only if one was
      recorded twice before, or a blank slot lies before a deployed spare. */
  lemma CoherentPassSharesIff(m: Machine, s: State, env: Env)
    requires m.ns != "" && HalfRecorded(m, s) && env.Valid() && env.Calm() && Coherent(m.ns, s.c.status, s.c.store)
    requires FreshLeft(JobOf(m, s, env), s.c.status, s.c.store, 0, 0)
    ensures Shares(AfterPass(m, s, env, true).c.status) <==>
              Shares(s.c.status) || Blocked(JobOf(m, s, env), s.c.status, s.c.store)
  {
    hide AfterPass, FreshLeft, Shares, Takes, Tidy, GoodLists, Coherent, LockTime, Blocked;
    CleanPassSharesIff(m, s, env);
    if !Shares(s.c.status) {
      TakesIffBlocked(JobOf(m, s, env), s.c.status, s.c.store);
    }
  }
}
