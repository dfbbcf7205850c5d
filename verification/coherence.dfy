/** Where every deployment belongs to a recorded entry: what an unfilled slot takes there, and which states
    are like that. */
module Coherence {
  import opened Prelude
  import opened ExamApi
  import opened Policy
  import opened Objects
  import opened Store
  import opened Pass
  import opened Alignment
  import opened Tidiness
  import opened Gate
  import opened Recovery
  import opened Sharing
  import opened Taking
  import opened Completion

  /** The deployment is that of a recorded student, and is labelled with her id. */
  ghost predicate Hers(ns: string, st: Status, s: Cluster, k: Key, a: int) {
    0 <= a < |st.students| && k == DeploymentKey(ns, st.students[a].slug) && Label(s, k, LabelStudent) == st.students[a].id != ""
  }

  /** The deployment is that of a recorded spare, and is labelled with no student. */
  ghost predicate SpareOf(ns: string, st: Status, s: Cluster, k: Key, b: int) {
    0 <= b < |st.spares| && st.spares[b].slug != "" && k == DeploymentKey(ns, st.spares[b].slug) && !HasLabel(s, k, LabelStudent)
  }

  /** Every deployment belongs to a recorded entry and is labelled for it. */
  ghost predicate Coherent(ns: string, st: Status, s: Cluster) {
    forall k: Key :: k in s && k.namespace == ns && k.kind == DeploymentKind ==>
      (exists a :: Hers(ns, st, s, k, a)) || exists b :: SpareOf(ns, st, s, k, b)
  }

  /** Slot `p` is blank, and a spare recorded after it is deployed. */
  predicate BlockedAt(j: Job, st: Status, s: Cluster, p: nat) {
    p < |st.spares| && st.spares[p].slug == ""
    && exists k :: p < k < |st.spares| && st.spares[k].slug != "" && HasDeployment(j, s, st.spares[k].slug)
  }

  predicate Blocked(j: Job, st: Status, s: Cluster) {
    exists p :: 0 <= p < |st.spares| && BlockedAt(j, st, s, p)
  }

  // What an unfilled slot takes.

  lemma NoStudentTakes(j: Job, st: Status, s: Cluster, k: nat)
    requires Ordinary(j) && Tidy(j.x, j.ns, s) && GoodLists(j.platform.domain, j.spec, st) && Coherent(j.ns, st, s)
    requires k < |j.spec.students|
    ensures !StudentTakesAt(j, st, s, k)
  {
    hide LeftoverStudentSlug, AllSlugs, Tidy, InstanceURL, GoodSpare;
    var slug := LeftoverStudentSlug(j, s, k);
    if slug != "" && |st.students| <= k {
      LeftoverIsHers(j, s, k);
    }
  }

  /** The spare deployments are exactly those of recorded spares. */
  lemma SparesRecorded(j: Job, st: Status, s: Cluster, slug: string)
    requires Ordinary(j) && Tidy(j.x, j.ns, s) && Coherent(j.ns, st, s) && !Shares(st)
    ensures slug in SpareSet(j, s) <==> HasDeployment(j, s, slug) && slug in Recorded(st, 0, |st.spares|)
  {
    hide Tidy, SpareSet, Shares, Made;
    var k := DeploymentKey(j.ns, slug);
    if slug in SpareSet(j, s) {
      LeftoverSpare(j, s, slug);
      if b :| SpareOf(j.ns, st, s, k, b) {
        assert st.spares[b].slug == slug;
      }
    }
    if HasDeployment(j, s, slug) && slug in Recorded(st, 0, |st.spares|) {
      var b :| 0 <= b < |st.spares| && st.spares[b].slug == slug != "";
      if a :| Hers(j.ns, st, s, k, a) {
        StudentSpareShare(st, a, b);
        assert false;
      }
      NobodysIsSpare(j, s, slug);
    }
  }

  /** What a slot finds are recorded spares. */
  lemma SeenRecorded(j: Job, st: Status, s: Cluster, p: nat)
    requires Ordinary(j) && Tidy(j.x, j.ns, s) && Coherent(j.ns, st, s) && !Shares(st)
    ensures Recorded(st, 0, p) <= Seen(j, st, s, p) <= Recorded(st, 0, |st.spares|)
  {
    hide Tidy, SpareSet, Shares, Coherent;
    forall slug | slug in Recorded(st, 0, p) || slug in Seen(j, st, s, p)
      ensures slug in Seen(j, st, s, p) && slug in Recorded(st, 0, |st.spares|)
    {
      SparesRecorded(j, st, s, slug);
    }
  }

  lemma {:induction false} AllFilled(st: Status, i: nat)
    requires !Shares(st) && i <= |st.spares| && forall b :: 0 <= b < i ==> st.spares[b].slug != ""
    ensures |Recorded(st, 0, i)| == i
  {
    hide Shares;
    if i == 0 {
      assert Recorded(st, 0, 0) == {};
    } else {
      AllFilled(st, i - 1);
      var last := st.spares[i - 1].slug;
      if last in Recorded(st, 0, i - 1) {
        var b :| 0 <= b < i - 1 && st.spares[b].slug == last;
        SparesDiffer(st, b, i - 1);
        assert false;
      }
      assert Recorded(st, 0, i) == Recorded(st, 0, i - 1) + {last};
    }
  }

  lemma TakingIsBlocked(j: Job, st: Status, s: Cluster, p: nat)
    requires Ordinary(j) && Tidy(j.x, j.ns, s) && Coherent(j.ns, st, s) && !Shares(st) && SpareTakesAt(j, st, s, p)
    ensures BlockedAt(j, st, s, p)
  {
    hide Tidy, SpareSet, Shares, Coherent, Ascending;
    var found := Seen(j, st, s, p);
    SeenRecorded(j, st, s, p);
    FewRecorded(st, 0, p);
    if found <= Recorded(st, 0, p) {
      SubsetCardinality(found, Recorded(st, 0, p));
      assert false;
    }
    var slug :| slug in found && slug !in Recorded(st, 0, p);
    SparesRecorded(j, st, s, slug);
    var k :| 0 <= k < |st.spares| && st.spares[k].slug == slug != "";
  }

  lemma BlockedTakes(j: Job, st: Status, s: Cluster, i: nat)
    requires Ordinary(j) && Tidy(j.x, j.ns, s) && Coherent(j.ns, st, s) && !Shares(st) && BlockedAt(j, st, s, i)
    requires forall b :: 0 <= b < i ==> st.spares[b].slug != ""
    ensures SpareTakesAt(j, st, s, i)
  {
    hide Tidy, SpareSet, Shares, Coherent, Ascending, AllSlugs;
    var k :| i < k < |st.spares| && st.spares[k].slug != "" && HasDeployment(j, s, st.spares[k].slug);
    var found, later := Seen(j, st, s, i), st.spares[k].slug;
    SeenRecorded(j, st, s, i);
    SparesRecorded(j, st, s, later);
    AllFilled(st, i);
    if later in Recorded(st, 0, i) {
      var b :| 0 <= b < i && st.spares[b].slug == later;
      SparesDiffer(st, b, k);
      assert false;
    }
    SubsetCardinality(Recorded(st, 0, i) + {later}, found);
    var taken := Ascending(found)[i];
    assert taken in Elements(Ascending(found));
    var b :| 0 <= b < |st.spares| && st.spares[b].slug == taken != "";
    SpareAmong(st, b);
  }

  lemma {:induction false} FirstBlank(st: Status, p: nat) returns (i: nat)
    requires p < |st.spares| && st.spares[p].slug == ""
    ensures i <= p && st.spares[i].slug == "" && forall b :: 0 <= b < i ==> st.spares[b].slug != ""
  {
    if b :| 0 <= b < p && st.spares[b].slug == "" {
      i := FirstBlank(st, b);
    } else {
      i := p;
    }
  }

  /** If every deployment belongs to an entry, an entry without slug takes a recorded one only when a blank
      slot lies before a deployed spare. */
  lemma TakesIffBlocked(j: Job, st: Status, s: Cluster)
    requires Ordinary(j) && Tidy(j.x, j.ns, s) && GoodLists(j.platform.domain, j.spec, st) && Coherent(j.ns, st, s) && !Shares(st)
    ensures Takes(j, st, s) <==> Blocked(j, st, s)
  {
    hide Tidy, GoodLists, Coherent, Shares, StudentTakesAt, SpareTakesAt;
    if StudentTakesFrom(j, st, s, 0) {
      var k :| 0 <= k < |j.spec.students| && StudentTakesAt(j, st, s, k);
      NoStudentTakes(j, st, s, k);
    }
    if p :| 0 <= p < j.spec.spares && SpareTakesAt(j, st, s, p) {
      TakingIsBlocked(j, st, s, p);
    }
    if Blocked(j, st, s) {
      var p :| 0 <= p < |st.spares| && BlockedAt(j, st, s, p);
      var i := FirstBlank(st, p);
      assert BlockedAt(j, st, s, i);
      BlockedTakes(j, st, s, i);
      assert i < j.spec.spares by { ListWithin(j, st); }
    }
  }

  lemma ListWithin(j: Job, st: Status)
    requires GoodLists(j.platform.domain, j.spec, st)
    ensures |st.spares| <= Max(j.spec.spares, 0)
  {
  }
}
