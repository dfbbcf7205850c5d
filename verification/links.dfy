/** A recorded link leads to the instance it was recorded for: through one route and one service to the pods
    of one deployment. */
module Links {
  import opened Prelude
  import opened ExamApi
  import opened Timetable
  import opened Policy
  import opened Objects
  import opened Store
  import opened Oracle
  import opened Pass
  import opened System
  import opened Alignment
  import opened Identity
  import opened Footprint
  import opened Interference
  import opened Tidiness
  import opened Access
  import opened Wakeup
  import opened Reachability
  import opened Closing

  /** Every route of the exam is for the host named after its slug, with the platform's certificate. */
  ghost predicate Hosted(platform: Platform, ns: string, s: Cluster) {
    forall k :: k in s && k.namespace == ns && k.kind == IngressKind ==>
      && k.name.Plain? && s[k].body.IngressBody?
      && s[k].body.host == k.name.text + "." + platform.domain
      && s[k].body.tlsSecret == if platform.tlsSecret == "" then None else Some(platform.tlsSecret)
  }

  lemma EntryHosted(j: Job, s: Cluster, i: nat, e: Entry, unlocked: bool)
    requires Hosted(j.platform, j.ns, s)
    ensures Hosted(j.platform, j.ns, EnforceEntry(j, s, i, e, unlocked))
  {
    hide PolicyObject, Labels;
  }

  lemma {:induction false} EnforceHosted(j: Job, s: Cluster, es: seq<Entry>, i: nat, unlocked: bool)
    requires i <= |es| && Hosted(j.platform, j.ns, s)
    ensures Hosted(j.platform, j.ns, EnforceFrom(j, s, es, i, unlocked))
    decreases |es| - i
  {
    hide EnforceEntry, Hosted;
    if i < |es| {
      EntryHosted(j, s, i, es[i], unlocked);
      EnforceHosted(j, EnforceEntry(j, s, i, es[i], unlocked), es, i + 1, unlocked);
    }
  }

  /** What a pass working in Unlocked leaves in the cluster, and that it keeps the recorded links. */
  lemma UnlockedPass(j: Job, c: Ctx)
    requires Begin(j, c).status.phase == Phase.Unlocked
    ensures Reconcile(j, c).c.store == EnforceFrom(j, c.store, Entries(c.status), 0, true)
  {
    hide ReconcileUnlock, Entries, ComputeSchedule, Summarize, EnforceFrom;
    var b := Begin(j, c);
    BeginPlaces(j, c);
    UnlockStore(j, b);
    SameListsSameEntries(b.status, c.status);
  }

  lemma PassHosted(m: Machine, s: State, env: Env)
    requires m.ns != "" && LinedUp(m, s) && env.Valid() && Hosted(m.platform, m.ns, s.c.store)
    ensures Hosted(m.platform, m.ns, Reconcile(JobOf(m, s, env), s.c).c.store)
  {
    hide Reconcile, EnforceFrom, WellMade, GoodStudent, GoodSpare, ComputeSchedule, Entries;
    var j := JobOf(m, s, env);
    if Begin(j, s.c).status.phase == Phase.Unlocked {
      UnlockedPass(j, s.c);
      EnforceHosted(j, s.c.store, Entries(s.c.status), 0, true);
    } else {
      PassContained(j, s.c);
    }
  }

  lemma StepHosted(m: Machine, s: State, step: Step)
    requires m.ns != "" && LinedUp(m, s) && Hosted(m.platform, m.ns, s.c.store) && Enabled(m, s, step)
    ensures Hosted(m.platform, m.ns, Apply(m, s, step).c.store)
  {
    hide Reconcile, LinedUp;
    if step.Reconciled? {
      PassHosted(m, s, step.env);
    }
  }

  /** In every run all routes of the exam are for the hosts named after their slugs. */
  lemma {:induction false} RunHosted(m: Machine, s: State, steps: seq<Step>)
    requires m.ns != "" && LinedUp(m, s) && Hosted(m.platform, m.ns, s.c.store) && Legal(m, s, steps)
    ensures Hosted(m.platform, m.ns, Run(m, s, steps).c.store)
    decreases |steps|
  {
    hide Apply, Hosted, LinedUp;
    if steps != [] {
      StepHosted(m, s, steps[0]);
      StepLinedUp(m, s, steps[0]);
      RunHosted(m, Apply(m, s, steps[0]), steps[1..]);
    }
  }

  // From the link to the pods.

  /** The links recorded for students and spares, in the order of their entries. */
  function LinksOf(st: Status): seq<string> {
    seq(|st.students|, i requires 0 <= i < |st.students| => st.students[i].url)
    + seq(|st.spares|, i requires 0 <= i < |st.spares| => st.spares[i].url)
  }

  /** A link determines its slug. */
  lemma LinksDiffer(a: string, b: string, domain: string)
    ensures "https://" + a + "." + domain == "https://" + b + "." + domain <==> a == b
    ensures a + "." + domain == b + "." + domain <==> a == b
  {
    HostsDiffer(a, b, domain);
    var x, y := a + "." + domain, b + "." + domain;
    assert "https://" + a + "." + domain == "https://" + x && "https://" + b + "." + domain == "https://" + y;
    assert ("https://" + x)[8..] == x && ("https://" + y)[8..] == y;
  }

  lemma HostsDiffer(a: string, b: string, domain: string)
    ensures a + "." + domain == b + "." + domain <==> a == b
  {
    var x, y := a + "." + domain, b + "." + domain;
    if x == y {
      assert x[..|a|] == a && y[..|b|] == b;
      assert |x| == |a| + 1 + |domain| && |y| == |b| + 1 + |domain|;
    }
  }

  lemma LinkOfSlug(domain: string, spec: Spec, st: Status, e: nat)
    requires GoodLists(domain, spec, st) && e < |Entries(st)|
    ensures |LinksOf(st)| == |Entries(st)|
    ensures LinksOf(st)[e] == if Entries(st)[e].slug == "" then "" else "https://" + Entries(st)[e].slug + "." + domain
  {
    if e < |st.students| {
      assert GoodStudent(domain, spec, e, st.students[e]);
    } else {
      assert GoodSpare(domain, st.spares[e - |st.students|]);
    }
  }

  /** The service of a slug has exactly the pods of that slug's deployment. */
  lemma ServiceServes(x: Ref, ns: string, s: Cluster, slug: string)
    requires Tidy(x, ns, s) && Key(ServiceKind, ns, Plain(slug)) in s
    ensures var service := s[Key(ServiceKind, ns, Plain(slug))].body;
            service.ServiceBody?
            && forall d :: d in s && d.namespace == ns && d.kind == DeploymentKind ==>
                 s[d].body.DeploymentBody? && (Selects(service.target, s[d].body.podLabels) <==> d.name == Plain(slug))
  {
    hide Labels, OwnerLabels;
    var k := Key(ServiceKind, ns, Plain(slug));
    assert Made(x, k, s[k]);
    forall d | d in s && d.namespace == ns && d.kind == DeploymentKind
      ensures s[d].body.DeploymentBody? && (Selects(s[k].body.target, s[d].body.podLabels) <==> d.name == Plain(slug))
    {
      assert Made(x, d, s[d]);
      SlugLabel(x, LabelValue(s[d].labels, LabelStudent), SlugOf(d.name));
    }
  }

  /** The link leads, by the only route for its host, to the service of the slug, on the port of the spec. */
  ghost predicate Leads(ns: string, port: int, s: Cluster, link: string, slug: string) {
    var route := Key(IngressKind, ns, Plain(slug));
    && route in s && s[route].body.IngressBody? && link == "https://" + s[route].body.host
    && s[route].body.backend == slug && s[route].body.backendPort == port
    && forall k :: k in s && k.namespace == ns && k.kind == IngressKind && s[k].body.IngressBody? ==>
         (link == "https://" + s[k].body.host ==> k == route)
  }

  lemma RouteLeads(m: Machine, s: State, slug: string)
    requires Gated(m, s) && Hosted(m.platform, m.ns, s.c.store) && Key(IngressKind, m.ns, Plain(slug)) in s.c.store
    ensures Leads(m.ns, s.spec.template.port, s.c.store, "https://" + slug + "." + m.platform.domain, slug)
  {
    hide Labels, LinedUp, LockTime;
    var domain := m.platform.domain;
    var route, link := Key(IngressKind, m.ns, Plain(slug)), "https://" + slug + "." + domain;
    assert IsAccess(route);
    assert link == "https://" + (slug + "." + domain);
    forall k | k in s.c.store && k.namespace == m.ns && k.kind == IngressKind && s.c.store[k].body.IngressBody?
               && link == "https://" + s.c.store[k].body.host
      ensures k == route
    {
      var host := s.c.store[k].body.host;
      assert ("https://" + host)[8..] == host && link[8..] == slug + "." + domain;
      HostsDiffer(k.name.text, slug, domain);
    }
  }

  /** After any run from admission, a pass that opens the exam, with no call refused, makes every recorded
      link lead to the service of its own slug; links of different slugs are different. */
  lemma LinksLead(m: Machine, s: State, steps: seq<Step>, env: Env, e: nat)
    requires m.ns != "" && Initial(m, s) && Legal(m, s, steps) && env.Valid() && NothingRefused(env)
    requires var t := Run(m, s, steps);
             Begin(JobOf(m, t, env), t.c).status.phase == Phase.Unlocked && e < |Entries(t.c.status)|
    ensures var t := Run(m, s, steps);
            var u := AfterPass(m, t, env, true);
            var slug := Entries(t.c.status)[e].slug;
            && Entries(u.c.status) == Entries(t.c.status) && |LinksOf(u.c.status)| == |Entries(u.c.status)|
            && (slug != "" ==>
                  && Leads(m.ns, u.spec.template.port, u.c.store, LinksOf(u.c.status)[e], slug)
                  && forall f :: 0 <= f < |LinksOf(u.c.status)| && LinksOf(u.c.status)[f] == LinksOf(u.c.status)[e] ==>
                       Entries(u.c.status)[f].slug == slug)
            && Tidy(m.x, m.ns, u.c.store)
  {
    hide Run, Legal, Reconcile, EnforceFrom, Entries, LinksOf, Made, Hosted, Gated, Leads, LockTime, GoodLists, ComputeSchedule;
    var t := Run(m, s, steps);
    var j := JobOf(m, t, env);
    var u := AfterPass(m, t, env, true);
    var step := Reconciled(env, true);
    InitialLinedUp(m, s);
    assert Hosted(m.platform, m.ns, s.c.store) && Tidy(m.x, m.ns, s.c.store) by { hide *; EmptyHosted(m, s); }
    RunLinedUp(m, s, steps);
    RunHosted(m, s, steps);
    RunTidy(m, s, steps);
    ReachableAccess(m, s, steps);
    StepLinedUp(m, t, step);
    StepHosted(m, t, step);
    StepTidy(m, t, step);
    StepGated(m, t, step);
    OpeningPass(j, t.c);
    PassKeepsEntries(j, t.c) by { assert Rank(t.c.status.phase) >= 2; }
    UnlockedPass(j, t.c);
    EnforceEstablishes(j, t.c.store, Entries(t.c.status), 0, true);
    var slug := Entries(t.c.status)[e].slug;
    assert GoodLists(m.platform.domain, u.spec, u.c.status) by { InLine(m, u); }
    LinkOfSlug(m.platform.domain, u.spec, u.c.status, e);
    if slug != "" {
      RouteLeads(m, u, slug);
      forall f | 0 <= f < |LinksOf(u.c.status)| && LinksOf(u.c.status)[f] == LinksOf(u.c.status)[e]
        ensures Entries(u.c.status)[f].slug == slug
      {
        LinkOfSlug(m.platform.domain, u.spec, u.c.status, f);
        LinksDiffer(Entries(u.c.status)[f].slug, slug, m.platform.domain);
      }
    }
  }

  lemma InLine(m: Machine, s: State)
    requires LinedUp(m, s)
    ensures GoodLists(m.platform.domain, s.spec, s.c.status)
  {
  }

  lemma EmptyHosted(m: Machine, s: State)
    requires Initial(m, s)
    ensures Hosted(m.platform, m.ns, s.c.store) && Tidy(m.x, m.ns, s.c.store)
  {
  }
}
